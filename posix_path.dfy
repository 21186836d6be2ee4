/**
  The three POSIX path helpers the pipeline driver uses to derive file names:
  `splitext`, `basename` and `join`, on the POSIX flavour of the path module
  (the separator is '/', the extension separator is '.').
 */
module PosixPath {

  /** Index of the last occurrence of `c` in `s`, or -1 when there is none (`str.rfind`). */
  function LastIndexOf(s: string, c: char): (r: int)
    ensures -1 <= r < |s|
    ensures r >= 0 ==> s[r] == c
    ensures forall j :: r < j < |s| ==> s[j] != c
    decreases |s|
  {
    if |s| == 0 then -1
    else if s[|s| - 1] == c then |s| - 1
    else LastIndexOf(s[..|s| - 1], c)
  }

  predicate AllDots(s: string) {
    forall i :: 0 <= i < |s| ==> s[i] == '.'
  }

  predicate IsAbsolute(p: string) {
    |p| > 0 && p[0] == '/'
  }

  /**
    The final component of `p`: everything after the last '/'.
    It is the longest suffix of `p` that holds no '/'.
   */
  function Basename(p: string): (r: string)
    ensures '/' !in r
    ensures |r| <= |p| && r == p[|p| - |r|..]
    ensures |r| < |p| ==> p[|p| - |r| - 1] == '/'
  {
    p[LastIndexOf(p, '/') + 1..]
  }

  /**
    Splits `p` into (root, ext) with root + ext == p. The extension starts at
    the last '.' of the final component, unless everything in that component
    before the '.' is itself a dot (leading dots of a name such as ".bashrc"
    are not an extension); otherwise the extension is empty.
   */
  function Splitext(p: string): (r: (string, string))
    ensures r.0 + r.1 == p
  {
    var sep := LastIndexOf(p, '/');
    var dot := LastIndexOf(p, '.');
    if sep < dot && !AllDots(p[sep + 1..dot]) then (p[..dot], p[dot..]) else (p, "")
  }

  /**
    What `Splitext` promises: the extension is empty or is one '.' followed by
    text holding no '.' and no '/'; a non-empty extension leaves a root whose
    final component is not all dots; and the extension is empty only when
    every '.' of the final component is a leading one.
   */
  lemma SplitextExtension(p: string)
    ensures var (root, ext) := Splitext(p);
      && (ext == "" || (ext[0] == '.' && '.' !in ext[1..] && '/' !in ext))
      && (ext != "" ==> !AllDots(Basename(root)))
      && (ext == "" ==>
            forall j :: 0 <= j < |Basename(p)| && Basename(p)[j] == '.' ==> AllDots(Basename(p)[..j]))
  {
    var sep := LastIndexOf(p, '/');
    var dot := LastIndexOf(p, '.');
    if sep < dot && !AllDots(p[sep + 1..dot]) {
      ExtensionShape(p);
      BasenameOfPrefix(p, dot);
    } else {
      NoExtension(p);
    }
  }

  /** What follows the last '.' of `p`, when that '.' is after the last '/', holds neither. */
  lemma ExtensionShape(p: string)
    requires LastIndexOf(p, '/') < LastIndexOf(p, '.')
    ensures var ext := p[LastIndexOf(p, '.')..];
      ext[0] == '.' && '.' !in ext[1..] && '/' !in ext
  {
    var sep, dot := LastIndexOf(p, '/'), LastIndexOf(p, '.');
    var ext := p[dot..];
    forall j | 0 <= j < |ext|
      ensures ext[j] != '/' && (j > 0 ==> ext[j] != '.')
    {
      assert ext[j] == p[dot + j];
    }
  }

  /** When `Splitext` finds no extension, every dot of the final component is a leading dot. */
  lemma NoExtension(p: string)
    requires var sep, dot := LastIndexOf(p, '/'), LastIndexOf(p, '.');
      !(sep < dot && !AllDots(p[sep + 1..dot]))
    ensures forall j :: 0 <= j < |Basename(p)| && Basename(p)[j] == '.' ==> AllDots(Basename(p)[..j])
  {
    var sep, dot := LastIndexOf(p, '/'), LastIndexOf(p, '.');
    var b := Basename(p);
    assert b == p[sep + 1..];
    var n := if sep < dot then dot - sep - 1 else 0;
    forall j | n < j < |b|
      ensures b[j] != '.'
    {
      assert b[j] == p[sep + 1 + j];
    }
    if sep < dot {
      assert b[..n] == p[sep + 1..dot];
    }
    LeadingDots(b, n);
  }

  /** In a string with no '.' after index `n` and only dots before it, every '.' has only dots before it. */
  lemma LeadingDots(b: string, n: nat)
    requires n <= |b| && AllDots(b[..n])
    requires forall j :: n < j < |b| ==> b[j] != '.'
    ensures forall j :: 0 <= j < |b| && b[j] == '.' ==> AllDots(b[..j])
  {
    forall j | 0 <= j < |b| && b[j] == '.'
      ensures AllDots(b[..j])
    {
      assert j <= n;
      assert b[..j] == b[..n][..j];
    }
  }

  /** Appending text without `c` does not move the last occurrence of `c`. */
  lemma {:induction false} LastIndexOfAppend(x: string, y: string, c: char)
    requires c !in y
    ensures LastIndexOf(x + y, c) == LastIndexOf(x, c)
    decreases |y|
  {
    if y != [] {
      assert (x + y)[..|x + y| - 1] == x + y[..|y| - 1];
      LastIndexOfAppend(x, y[..|y| - 1], c);
    } else {
      assert x + y == x;
    }
  }

  /** The last '/' of `x` followed by a '/'-free `y` is the last '/' of `x + y`. */
  lemma BasenameAfterSeparator(x: string, y: string)
    requires x == [] || x[|x| - 1] == '/'
    requires '/' !in y
    ensures Basename(x + y) == y
  {
    LastIndexOfAppend(x, y, '/');
    assert LastIndexOf(x, '/') == |x| - 1;
    assert (x + y)[|x|..] == y;
  }

  /** Cutting `s` after its last `c` does not move that last `c`. */
  lemma {:induction false} LastIndexOfPrefix(s: string, n: nat, c: char)
    requires LastIndexOf(s, c) < n <= |s|
    ensures LastIndexOf(s[..n], c) == LastIndexOf(s, c)
    decreases |s|
  {
    if n < |s| {
      var t := s[..|s| - 1];
      assert s[|s| - 1] != c;
      assert t[..n] == s[..n];
      LastIndexOfPrefix(t, n, c);
    } else {
      assert s[..n] == s;
    }
  }

  /** Cutting `p` after its last '/' leaves the same final component. */
  lemma BasenameOfPrefix(p: string, n: nat)
    requires LastIndexOf(p, '/') < n <= |p|
    ensures Basename(p[..n]) == p[LastIndexOf(p, '/') + 1..n]
  {
    LastIndexOfPrefix(p, n, '/');
  }

  /** The '.' that starts a '.'-free extension is the last '.'. */
  lemma LastDotBeforeExtension(x: string, ext: string)
    requires ext != "" && ext[0] == '.' && '.' !in ext[1..]
    ensures LastIndexOf(x + ext, '.') == |x|
  {
    var y := x + ".";
    assert x + ext == y + ext[1..];
    LastIndexOfAppend(y, ext[1..], '.');
  }

  /** Behind a directory part ending in '/' and '/'-free text, the last '/' ends the directory part. */
  lemma LastSeparatorOfDirectory(dir: string, rest: string)
    requires dir == "" || dir[|dir| - 1] == '/'
    requires '/' !in rest
    ensures LastIndexOf(dir + rest, '/') == |dir| - 1
  {
    LastIndexOfAppend(dir, rest, '/');
  }

  /**
    A path made of a directory part ending in '/', a name without '/' or '.',
    and one extension splits into the directory plus name and the extension,
    and the final component of the former is the name.
   */
  lemma SplitextOneExtension(dir: string, name: string, ext: string)
    requires dir == "" || dir[|dir| - 1] == '/'
    requires name != "" && '/' !in name && '.' !in name
    requires ext != "" && ext[0] == '.' && '/' !in ext && '.' !in ext[1..]
    ensures Splitext(dir + name + ext) == (dir + name, ext)
    ensures Basename(dir + name) == name
  {
    var p := dir + name + ext;
    LastDotBeforeExtension(dir + name, ext);
    assert '/' !in name + ext by {
      forall j | 0 <= j < |name + ext|
        ensures (name + ext)[j] != '/'
      {
        if j < |name| { assert (name + ext)[j] == name[j]; } else { assert (name + ext)[j] == ext[j - |name|]; }
      }
    }
    assert p == dir + (name + ext);
    LastSeparatorOfDirectory(dir, name + ext);
    var sep, dot := |dir| - 1, |dir| + |name|;
    assert p[sep + 1..dot] == name;
    assert !AllDots(name) by {
      assert name[0] != '.';
    }
    assert p[..dot] == dir + name && p[dot..] == ext;
    BasenameAfterSeparator(dir, name);
  }

  /**
    `join(a, b)` with one further component: an absolute `b` replaces `a`;
    otherwise `b` is appended, with a '/' in between unless `a` is empty or
    already ends in one.
   */
  function Join(a: string, b: string): (r: string)
    ensures IsAbsolute(b) ==> r == b
    ensures !IsAbsolute(b) ==>
      |a| + |b| <= |r| <= |a| + 1 + |b| && r[..|a|] == a && r[|r| - |b|..] == b
    ensures !IsAbsolute(b) && a != "" ==> r[|r| - |b| - 1] == '/'
    ensures !IsAbsolute(b) && (a == "" || a[|a| - 1] == '/') ==> |r| == |a| + |b|
  {
    if IsAbsolute(b) then b
    else if a == "" || a[|a| - 1] == '/' then a + b
    else a + "/" + b
  }

  /** A plain file name joined onto a directory keeps its own name as the final component. */
  lemma JoinBasename(a: string, b: string)
    requires b != "" && '/' !in b
    ensures Basename(Join(a, b)) == b
  {
    if a == "" || a[|a| - 1] == '/' {
      BasenameAfterSeparator(a, b);
    } else {
      assert a + "/" + b == (a + "/") + b;
      BasenameAfterSeparator(a + "/", b);
    }
  }
}
