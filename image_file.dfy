/** The file input's change handler: the image's alternative text is the
    last path segment of the object URL made for the chosen file. */
module ImageFile {

  /** The index of the last occurrence of `c` in `s`, or -1 when there is none,
      as JavaScript's `lastIndexOf` gives it. */
  function LastIndexOf(s: string, c: char): (i: int)
    ensures -1 <= i < |s|
    ensures i >= 0 ==> s[i] == c
    ensures forall j :: i < j < |s| ==> s[j] != c
    decreases |s|
  {
    if s == [] then -1
    else if s[|s| - 1] == c then |s| - 1
    else LastIndexOf(s[..|s| - 1], c)
  }

  /** The part of the URL after its last '/', or the whole URL when it has
      none (`lastIndexOf` gives -1, so the substring starts at 0). */
  function FileName(url: string): (name: string)
    ensures |name| <= |url| && url[|url| - |name|..] == name
    ensures '/' !in name
    ensures '/' in url ==> url[|url| - |name| - 1] == '/'
    ensures '/' !in url ==> name == url
  {
    url[LastIndexOf(url, '/') + 1..]
  }

  /** Joining a directory part and a name that has no '/' and taking the
      file name gives the name back, whatever the directory part holds. */
  lemma FileNameOfJoined(dir: string, name: string)
    requires '/' !in name
    ensures FileName(dir + "/" + name) == name
  {
    var url := dir + "/" + name;
    assert url[|dir|] == '/';
    assert url[|dir| + 1..] == name;
  }
}
