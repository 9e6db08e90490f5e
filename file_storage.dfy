/**
 * The file-name sanitiser of the storage service: keep the last path
 * component only, then replace every character outside a small safe set.
 */
module FileStorage {
  import opened Text

  /** The characters `_sanitize_filename` keeps: ASCII letters, digits, '.', '_' and '-'. */
  predicate SafeChar(c: char)
  {
    IsLetter(c) || IsDigit(c) || c == '.' || c == '_' || c == '-'
  }

  /** `s.rfind(c)`: the position of the last `c` in `s`, or -1 when there is none. */
  function LastIndexOf(s: string, c: char): (i: int)
    ensures -1 <= i < |s|
    ensures i >= 0 ==> s[i] == c
    ensures forall j :: i < j < |s| ==> s[j] != c
    decreases |s|
  {
    if s == [] then -1
    else if s[|s| - 1] == c then |s| - 1
    else LastIndexOf(s[..|s| - 1], c)
  }

  /**
   * POSIX `os.path.basename`: everything after the last '/'. The result
   * holds no separator and is either the whole path or follows a separator.
   */
  function Basename(path: string): (r: string)
    ensures '/' !in r
    ensures |r| <= |path| && r == path[|path| - |r|..]
    ensures |r| == |path| || path[|path| - |r| - 1] == '/'
    ensures '/' !in path ==> r == path
  {
    var i := LastIndexOf(path, '/');
    assert i == -1 ==> '/' !in path;
    path[i + 1..]
  }

  /** Each unsafe character becomes '_'. */
  function Replace(s: string): (r: string)
    ensures |r| == |s|
    ensures forall i :: 0 <= i < |s| ==> r[i] == if SafeChar(s[i]) then s[i] else '_'
  {
    if s == [] then [] else [if SafeChar(s[0]) then s[0] else '_'] + Replace(s[1..])
  }

  /** `_sanitize_filename`. */
  function SanitizeFilename(filename: string): (r: string)
    ensures |r| == |Basename(filename)|
    ensures forall i :: 0 <= i < |r| ==> SafeChar(r[i])
    ensures forall i :: 0 <= i < |r| ==>
      var c := Basename(filename)[i];
      if SafeChar(c) then r[i] == c else r[i] == '_'
  {
    Replace(Basename(filename))
  }

  /** The result never holds a path separator, so it stays inside the storage directory's own level. */
  lemma NoSeparator(filename: string)
    ensures '/' !in SanitizeFilename(filename)
  {
    var r := SanitizeFilename(filename);
    assert forall i :: 0 <= i < |r| ==> r[i] != '/';
  }

  /** Sanitising twice changes nothing more. */
  lemma SanitizeIdempotent(filename: string)
    ensures SanitizeFilename(SanitizeFilename(filename)) == SanitizeFilename(filename)
  {
    var r := SanitizeFilename(filename);
    NoSeparator(filename);
    assert Basename(r) == r;
    var rr := SanitizeFilename(r);
    assert |rr| == |r|;
    forall i | 0 <= i < |r|
      ensures rr[i] == r[i]
    {
      assert SafeChar(r[i]);
    }
  }

  /** A name made of safe characters only, with no directory part, is kept as it is. */
  lemma SafeNameKept(filename: string)
    requires forall i :: 0 <= i < |filename| ==> SafeChar(filename[i])
    ensures SanitizeFilename(filename) == filename
  {
    assert '/' !in filename by {
      forall i | 0 <= i < |filename| ensures filename[i] != '/' {
        assert SafeChar(filename[i]);
      }
    }
  }
}
