/** The relative request path that the directory download derives from a file's
    `download_url`: `'/' + '/'.join(url.strip("https://").split('/')[1:])`.
    Python's `strip` takes its argument as a set of characters {h, t, p, s, :, /}
    removed from BOTH ends of the URL, so this is not a prefix removal.  A host that
    begins with one of those letters loses it, which is harmless because the host is
    dropped anyway; but a host made only of them is stripped away together with the
    "/" after it, and the first path segment is then dropped in its place.  A path
    that ends with one of those letters loses it too. */
module DownloadPath {
  import opened PyStr

  /** The characters of the literal "https://" that `strip` treats as a set. */
  const StripChars: set<char> := {'h', 't', 'p', 's', ':', '/'}

  /** The expression of the large-file download and of the walk's large-file branch. */
  function RelativePath(url: string): (p: string)
    ensures |p| >= 1 && p[0] == '/'
  {
    "/" + Join('/', Split(Strip(url, StripChars), '/')[1..])
  }

  /** Joining all pieces but the first of a split keeps exactly what follows
      the first separator, and nothing when there is no separator. */
  lemma {:induction false} JoinAfterFirst(t: string, c: char)
    ensures c !in t ==> Join(c, Split(t, c)[1..]) == ""
    ensures forall k :: 0 <= k < |t| && t[k] == c && c !in t[..k] ==>
      Join(c, Split(t, c)[1..]) == t[k + 1..]
  {
    var k := IndexOf(t, c);
    if k == |t| {
      assert Split(t, c)[1..] == [];
    } else {
      assert Split(t, c)[1..] == Split(t[k + 1..], c);
      JoinSplit(t[k + 1..], c);
      forall k' | 0 <= k' < |t| && t[k'] == c && c !in t[..k']
        ensures k' == k
      {
        assert k' <= k;
      }
    }
  }

  /** The relative path is "/" followed by whatever comes after the first "/" of the
      stripped URL: the host segment is dropped, every later segment is kept. */
  lemma RelativePathDropsFirstSegment(url: string)
    ensures var t := Strip(url, StripChars);
      ('/' !in t ==> RelativePath(url) == "/") &&
      (forall k :: 0 <= k < |t| && t[k] == '/' && '/' !in t[..k] ==>
         RelativePath(url) == "/" + t[k + 1..])
  {
    JoinAfterFirst(Strip(url, StripChars), '/');
  }

  /** For a URL made of strip characters (such as "https://"), a host without "/",
      "/", a path, and trailing strip characters, the result is "/" + path: the host
      segment is dropped and so are the trailing strip characters. With pre = "https://h",
      host = "ost", path = "a/b", post = "" this is "https://host/a/b" giving "/a/b"; with
      path = "repo/branc", post = "h" it is "https://host/repo/branch" giving "/repo/branc". */
  lemma {:induction false} RelativePathOfUrl(pre: string, host: string, path: string, post: string)
    requires forall k :: 0 <= k < |pre| ==> pre[k] in StripChars
    requires forall k :: 0 <= k < |post| ==> post[k] in StripChars
    requires host != [] && host[0] !in StripChars && '/' !in host
    requires path != [] && path[|path| - 1] !in StripChars
    ensures RelativePath(pre + host + "/" + path + post) == "/" + path
  {
    var url := pre + host + "/" + path + post;
    var t := host + "/" + path;
    assert url == pre + t + post;
    StripOfPadded(pre, t, post);
    assert '/' !in t[..|host|] by { assert t[..|host|] == host; }
    assert t[|host|] == '/';
    assert t[|host| + 1..] == path;
    RelativePathDropsFirstSegment(url);
  }

  /** The example URLs below, cut into the pieces RelativePathOfUrl takes. */
  lemma ExampleUrlPieces()
    ensures "https://h" + "ost" + "/" + "a/b" + "" == "https://host/a/b"
    ensures "https://h" + "ost" + "/" + "repo/branc" + "h" == "https://host/repo/branch"
    ensures "https://ssh/" + "a" + "/" + "b" + "" == "https://ssh/a/b"
  {
  }

  /** The next URL, still in pieces. */
  lemma HostUrlInPieces()
    ensures RelativePath("https://h" + "ost" + "/" + "a/b" + "") == "/a/b"
  {
    RelativePathOfUrl("https://h", "ost", "a/b", "");
  }

  /** "https://host/a/b" gives "/a/b". */
  lemma HostUrlExample()
    ensures RelativePath("https://host/a/b") == "/a/b"
  {
    ExampleUrlPieces();
    HostUrlInPieces();
  }

  /** The next URL, still in pieces. */
  lemma BranchUrlInPieces()
    ensures RelativePath("https://h" + "ost" + "/" + "repo/branc" + "h") == "/repo/branc"
  {
    RelativePathOfUrl("https://h", "ost", "repo/branc", "h");
  }

  /** "https://host/repo/branch" loses the final "h" of "branch". */
  lemma BranchUrlExample()
    ensures RelativePath("https://host/repo/branch") == "/repo/branc"
  {
    ExampleUrlPieces();
    BranchUrlInPieces();
  }

  /** A host made only of strip characters, such as "ssh", is stripped away with the
      "/" that follows it, so the first path segment is dropped instead. */
  lemma StripCharHostExample()
    ensures RelativePath("https://ssh/a/b") == "/b"
  {
    ExampleUrlPieces();
    StripCharHostInPieces();
  }

  /** The same URL, still in pieces. */
  lemma StripCharHostInPieces()
    ensures RelativePath("https://ssh/" + "a" + "/" + "b" + "") == "/b"
  {
    RelativePathOfUrl("https://ssh/", "a", "b", "");
  }

  /** Stripping pre + t + post, where pre and post consist of strip characters and t
      starts and ends outside the strip set, gives t. */
  lemma StripOfPadded(pre: string, t: string, post: string)
    requires forall k :: 0 <= k < |pre| ==> pre[k] in StripChars
    requires forall k :: 0 <= k < |post| ==> post[k] in StripChars
    requires t != [] && t[0] !in StripChars && t[|t| - 1] !in StripChars
    ensures Strip(pre + t + post, StripChars) == t
  {
    var s := pre + t + post;
    var r := Strip(s, StripChars);
    StripIsStripped(s, StripChars);
    var i, j :| StripCut(s, StripChars, i, j) && r == s[i..j];
    var a, b := |pre|, |pre| + |t|;
    assert s[a] == t[0] && s[b - 1] == t[|t| - 1];
    assert s[a..b] == t;
    assert StripCut(s, StripChars, a, b);
    StripCutUnique(s, StripChars, i, j, a, b);
  }
}
