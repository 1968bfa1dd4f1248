/** The input-shaping helpers of multiaccount.py: cleaning a target list,
    filtering account rows, and choosing an image file by its suffix. File
    reading itself is not modelled: each function takes what was read. */
module Inputs {
  import opened Common
  import opened Text

  // ----- target lists -----

  /** `[t.strip() for t in lines if t.strip()]`: the non-blank lines, each
      stripped, in file order. */
  function CleanTargets(lines: seq<string>): (r: seq<string>)
    ensures |r| <= |lines|
  {
    if lines == [] then []
    else
      var t := Strip(lines[0]);
      (if t != [] then [t] else []) + CleanTargets(lines[1..])
  }

  /** Every cleaned target is non-empty and has no surrounding whitespace. */
  lemma {:induction false} CleanTargetsClean(lines: seq<string>)
    ensures forall t :: t in CleanTargets(lines) ==> t != [] && Stripped(t)
  {
    if lines != [] {
      CleanTargetsClean(lines[1..]);
    }
  }

  /** Cleaning a list is cleaning its first line, then the rest. */
  lemma CleanTargetsCons(line: string, rest: seq<string>)
    ensures CleanTargets([line] + rest) == (if Strip(line) != [] then [Strip(line)] else []) + CleanTargets(rest)
  {
    assert ([line] + rest)[0] == line;
    assert ([line] + rest)[1..] == rest;
  }

  /** Cleaning works line by line: it distributes over concatenation. */
  lemma {:induction false} CleanTargetsAppend(a: seq<string>, b: seq<string>)
    ensures CleanTargets(a + b) == CleanTargets(a) + CleanTargets(b)
  {
    if a == [] {
      assert a + b == b;
    } else {
      var line, rest := a[0], a[1..];
      assert a == [line] + rest;
      assert a + b == [line] + (rest + b);
      CleanTargetsCons(line, rest);
      CleanTargetsCons(line, rest + b);
      CleanTargetsAppend(rest, b);
      AppendAssoc(if Strip(line) != [] then [Strip(line)] else [], CleanTargets(rest), CleanTargets(b));
    }
  }

  /** One line is dropped exactly when it is all whitespace, and kept
      stripped otherwise. Together with CleanTargetsAppend this fixes the
      result for every input: the non-blank lines, stripped, in order. */
  lemma CleanTargetsLine(line: string)
    ensures CleanTargets([line]) == if AllSpace(line) then [] else [Strip(line)]
  {
    StripEmptyIffBlank(line);
    assert [line][1..] == [];
  }

  /** Cleaning a cleaned list changes nothing. */
  lemma {:induction false} CleanTargetsIdempotent(lines: seq<string>)
    ensures CleanTargets(CleanTargets(lines)) == CleanTargets(lines)
  {
    if lines != [] {
      var t := Strip(lines[0]);
      var head, rest := if t != [] then [t] else [], CleanTargets(lines[1..]);
      assert CleanTargets(lines) == head + rest;
      CleanTargetsAppend(head, rest);
      CleanTargetsIdempotent(lines[1..]);
      CleanLineClean(lines[0]);
    }
  }

  /** What cleaning keeps of one line is already clean. */
  lemma CleanLineClean(line: string)
    ensures var t := Strip(line);
      var head := if t != [] then [t] else [];
      CleanTargets(head) == head
  {
    var t := Strip(line);
    if t != [] {
      StripIdempotent(line);
      StripEmptyIffBlank(t);
      CleanTargetsLine(t);
    }
  }

  // ----- account rows -----

  /** `row and len(row) >= 2`. */
  predicate IsAccountRow(row: seq<string>)
    ensures IsAccountRow(row) <==> |row| >= 2
  {
    row != [] && |row| >= 2
  }

  /** `[row for row in reader if row and len(row) >= 2]`: a row survives
      exactly when it has at least two fields. */
  function FilterAccounts(rows: seq<seq<string>>): (r: seq<seq<string>>)
    ensures |r| <= |rows|
    ensures forall k :: 0 <= k < |r| ==> |r[k]| >= 2
    ensures forall row :: row in r <==> row in rows && |row| >= 2
  {
    if rows == [] then []
    else (if IsAccountRow(rows[0]) then [rows[0]] else []) + FilterAccounts(rows[1..])
  }

  /** Filtering keeps the file order: it distributes over concatenation. */
  lemma {:induction false} FilterAccountsAppend(a: seq<seq<string>>, b: seq<seq<string>>)
    ensures FilterAccounts(a + b) == FilterAccounts(a) + FilterAccounts(b)
  {
    if a == [] {
      assert a + b == b;
    } else {
      assert (a + b)[1..] == a[1..] + b;
      FilterAccountsAppend(a[1..], b);
    }
  }

  /** `username, password, *_ = row` followed by `.strip()` on both: the
      first two fields, stripped; further fields are ignored. */
  function Credentials(row: seq<string>): (r: (string, string))
    requires |row| >= 2
    ensures Stripped(r.0) && Stripped(r.1)
    ensures exists i :: SliceBetweenSpace(row[0], r.0, i)
    ensures exists i :: SliceBetweenSpace(row[1], r.1, i)
  {
    StripIsSlice(row[0]);
    StripIsSlice(row[1]);
    (Strip(row[0]), Strip(row[1]))
  }

  // ----- media directory -----

  /** `s.rfind(c)`: the last index holding `c`, or -1. */
  function LastIndexOf(s: string, c: char): (r: int)
    ensures -1 <= r < |s|
    ensures r >= 0 ==> s[r] == c && forall j :: r < j < |s| ==> s[j] != c
    ensures r == -1 ==> forall j :: 0 <= j < |s| ==> s[j] != c
  {
    if s == [] then -1
    else if s[|s| - 1] == c then |s| - 1
    else LastIndexOf(s[..|s| - 1], c)
  }

  /** `PurePath(name).suffix`: from the last dot to the end, provided that
      dot is neither the first nor the last character; otherwise empty. */
  function Suffix(name: string): (r: string)
    ensures r != [] ==> && 2 <= |r| < |name|
                        && r == name[|name| - |r|..]
                        && r[0] == '.'
                        && forall j :: 1 <= j < |r| ==> r[j] != '.'
    ensures r == [] ==> forall i :: 0 < i < |name| - 1 ==> name[i] == '.' ==> exists j :: i < j < |name| && name[j] == '.'
  {
    var i := LastIndexOf(name, '.');
    if 0 < i < |name| - 1 then name[i..] else ""
  }

  /** `f.suffix.lower() in [".jpg", ".png", ".jpeg"]`. */
  predicate IsImage(name: string)
    ensures IsImage(name) ==> 4 <= |Suffix(name)| <= 5 && Suffix(name)[0] == '.' && |name| > |Suffix(name)|
  {
    var ext := Lower(Suffix(name));
    ext == ".jpg" || ext == ".png" || ext == ".jpeg"
  }

  /** The image entries of a directory listing, in listing order. */
  function ImageFiles(entries: seq<string>): (r: seq<string>)
    ensures |r| <= |entries|
    ensures forall f :: f in r <==> f in entries && IsImage(f)
  {
    if entries == [] then []
    else (if IsImage(entries[0]) then [entries[0]] else []) + ImageFiles(entries[1..])
  }

  /** `random_image()`: `None` when the directory is missing or holds no
      image; otherwise one of its images, picked by the random index `pick`. */
  function RandomImage(dir: Option<seq<string>>, pick: nat): (r: Option<string>)
    ensures r.Some? ==> dir.Some? && r.value in dir.value && IsImage(r.value)
    ensures r.None? ==> dir.None? || forall f :: f in dir.value ==> !IsImage(f)
  {
    match dir
    case None => None
    case Some(entries) =>
      var images := ImageFiles(entries);
      if images == [] then None else Some(images[pick % |images|])
  }

  /** The suffix test is case-insensitive and ignores a leading dot. */
  lemma ImageSuffixExamples()
    ensures IsImage("cover.JPG")
    ensures !IsImage(".png")
  {
    var cover := "cover.JPG";
    assert cover[5] == '.' && cover[6] != '.' && cover[7] != '.' && cover[8] != '.';
    assert LastIndexOf(cover, '.') == 5;
    assert Suffix(cover) == ".JPG";
    var ext := Lower(".JPG");
    assert ext[0] == '.' && ext[1] == 'j' && ext[2] == 'p' && ext[3] == 'g';
    assert ext == ".jpg";
    var hidden := ".png";
    assert hidden[0] == '.' && hidden[1] != '.' && hidden[2] != '.' && hidden[3] != '.';
    assert LastIndexOf(hidden, '.') == 0;
  }

  /** A trailing dot and an extension outside the list are not images. */
  lemma OtherSuffixExamples()
    ensures !IsImage("photo.")
    ensures !IsImage("notes.txt")
  {
    assert LastIndexOf("photo.", '.') == 5;
    var notes := "notes.txt";
    assert notes[5] == '.' && notes[6] != '.' && notes[7] != '.' && notes[8] != '.';
    assert LastIndexOf(notes, '.') == 5;
    assert Suffix(notes) == ".txt";
    var txt := Lower(".txt");
    assert txt[1] == 't';
  }
}
