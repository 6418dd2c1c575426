/**
 * get_image_files: the names in the pics directory that end, ignoring case,
 * in one of seven image extensions, sorted. The directory's existence and
 * its listing (in whatever order the file system gives it) are inputs.
 */
module ImageFiles {
  import opened NameOrder

  const ImageExtensions: seq<string> := [".png", ".jpg", ".jpeg", ".gif", ".webp", ".svg", ".bmp"]

  /** `str.lower()` on ASCII: A-Z become a-z, every other character stays. */
  function LowerChar(c: char): char {
    if 'A' <= c <= 'Z' then (c as int + 32) as char else c
  }

  function UpperChar(c: char): char {
    if 'a' <= c <= 'z' then (c as int - 32) as char else c
  }

  function Lower(s: string): string {
    seq(|s|, i requires 0 <= i < |s| => LowerChar(s[i]))
  }

  function Upper(s: string): string {
    seq(|s|, i requires 0 <= i < |s| => UpperChar(s[i]))
  }

  predicate EndsWith(s: string, suffix: string) {
    |suffix| <= |s| && s[|s| - |suffix|..] == suffix
  }

  /** The test of the loop: the lowered name ends with one of the extensions, so it is at least four characters long. */
  predicate IsImageName(name: string)
    ensures IsImageName(name) ==> |name| >= 4
  {
    assert forall i :: 0 <= i < |ImageExtensions| ==> |ImageExtensions[i]| >= 4;
    exists i :: 0 <= i < |ImageExtensions| && EndsWith(Lower(name), ImageExtensions[i])
  }

  /** The names of `listing` that pass the test, in listing order: each one passes, and none is invented. */
  function Filter(listing: seq<string>): (r: seq<string>)
    ensures forall x :: x in r ==> IsImageName(x)
    ensures multiset(r) <= multiset(listing)
  {
    if listing == [] then []
    else
      var init, last := listing[..|listing| - 1], listing[|listing| - 1];
      assert listing == init + [last];
      Filter(init) + (if IsImageName(last) then [last] else [])
  }

  /** What get_image_files returns: nothing without the directory, and only passing names taken from the listing. */
  function ImageFilesOf(picsExists: bool, listing: seq<string>): (r: seq<string>)
    ensures !picsExists ==> r == []
    ensures forall x :: x in r ==> IsImageName(x)
    ensures multiset(r) <= multiset(listing)
  {
    if !picsExists then []
    else
      var passing := Filter(listing);
      assert forall x :: x in Sort(passing) ==> x in multiset(passing);
      Sort(passing)
  }

  /** The test ignores case: a name, its lower-case and its upper-case forms all pass or all fail. */
  lemma ImageNameIgnoresCase(name: string)
    ensures IsImageName(Lower(name)) == IsImageName(name)
    ensures IsImageName(Upper(name)) == IsImageName(name)
  {
    assert Lower(Lower(name)) == Lower(name);
    assert Lower(Upper(name)) == Lower(name);
  }

  lemma {:induction false} FilterMembership(listing: seq<string>)
    ensures forall x :: x in Filter(listing) <==> x in listing && IsImageName(x)
  {
    if listing != [] {
      var init := listing[..|listing| - 1];
      FilterMembership(init);
      assert listing == init + [listing[|listing| - 1]];
    }
  }

  lemma {:induction false} FilterKeepsPassingNames(listing: seq<string>)
    requires forall i :: 0 <= i < |listing| ==> IsImageName(listing[i])
    ensures Filter(listing) == listing
  {
    if listing != [] {
      var init := listing[..|listing| - 1];
      FilterKeepsPassingNames(init);
      assert listing == init + [listing[|listing| - 1]];
    }
  }

  /**
   * The result: empty when the directory is missing; otherwise sorted, a
   * sub-multiset of the listing, and holding a name iff the listing has it
   * and it passes the extension test.
   */
  lemma ImageFilesProperties(picsExists: bool, listing: seq<string>)
    ensures !picsExists ==> ImageFilesOf(picsExists, listing) == []
    ensures Sorted(ImageFilesOf(picsExists, listing))
    ensures multiset(ImageFilesOf(picsExists, listing)) <= multiset(listing)
    ensures forall x :: x in ImageFilesOf(picsExists, listing) <==> picsExists && x in listing && IsImageName(x)
  {
    if picsExists {
      SortSortsAndPermutes(Filter(listing));
      FilterMembership(listing);
      forall x
        ensures x in Sort(Filter(listing)) <==> x in Filter(listing)
      {
        assert x in Sort(Filter(listing)) <==> x in multiset(Sort(Filter(listing)));
      }
    }
  }

  /** Filtering and sorting the result again changes nothing. */
  lemma ImageFilesIdempotent(listing: seq<string>)
    ensures ImageFilesOf(true, ImageFilesOf(true, listing)) == ImageFilesOf(true, listing)
  {
    var files := ImageFilesOf(true, listing);
    ImageFilesProperties(true, listing);
    FilterKeepsPassingNames(files);
    SortOfSorted(files);
  }

  /** get_image_files: the loop collects passing names in listing order, then the list is sorted. */
  method GetImageFiles(picsExists: bool, listing: seq<string>) returns (files: seq<string>)
    ensures files == ImageFilesOf(picsExists, listing)
    ensures Sorted(files)
    ensures forall x :: x in files <==> picsExists && x in listing && IsImageName(x)
  {
    ImageFilesProperties(picsExists, listing);
    if !picsExists {
      return [];
    }
    var imageFiles := [];
    for i := 0 to |listing|
      invariant imageFiles == Filter(listing[..i])
    {
      assert listing[..i + 1][..i] == listing[..i];
      if IsImageName(listing[i]) {
        imageFiles := imageFiles + [listing[i]];
      }
    }
    assert listing[..|listing|] == listing;
    files := Sort(imageFiles);
  }

  /** Whatever the case of its letters, an extension passes the test, after any stem: "CAT.PNG", "photo.JpEg". */
  lemma AnyCaseExtensionPasses(stem: string, ext: string)
    requires Lower(ext) in ImageExtensions
    ensures IsImageName(stem + ext)
  {
    var name := stem + ext;
    assert Lower(name) == Lower(stem) + Lower(ext);
    assert Lower(name)[|Lower(name)| - |Lower(ext)|..] == Lower(ext);
    var i :| 0 <= i < |ImageExtensions| && ImageExtensions[i] == Lower(ext);
    assert EndsWith(Lower(name), ImageExtensions[i]);
  }
}
