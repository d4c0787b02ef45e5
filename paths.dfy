/** File-name arithmetic used around every tool call: joining a name onto a
    directory, appending a format suffix when it is missing, and cutting a
    name at its first dot. */
module PathNames {

  predicate EndsWith(s: string, suffix: string)
  {
    |suffix| <= |s| && s[|s| - |suffix|..] == suffix
  }

  predicate StartsWith(s: string, prefix: string)
  {
    |prefix| <= |s| && s[..|prefix|] == prefix
  }

  predicate IsAbsolute(name: string)
  {
    |name| > 0 && name[0] == '/'
  }

  /** `os.path.join(dir, name)` for two components on POSIX: an absolute
      `name` replaces `dir`; otherwise a separator is inserted unless `dir`
      is empty or already ends with one. */
  function Join(dir: string, name: string): (r: string)
    ensures EndsWith(r, name)
    ensures IsAbsolute(name) ==> r == name
  {
    if IsAbsolute(name) then name
    else if dir == [] || dir[|dir| - 1] == '/' then dir + name
    else dir + "/" + name
  }

  /** A relative name lands inside the directory, separated by at most one `/`. */
  lemma JoinRelative(dir: string, name: string)
    requires !IsAbsolute(name)
    ensures StartsWith(Join(dir, name), dir)
    ensures |Join(dir, name)| <= |dir| + 1 + |name|
    ensures dir != [] && dir[|dir| - 1] != '/' ==> Join(dir, name) == dir + "/" + name
  {
  }

  lemma EndsWithTransitive(s: string, t: string, u: string)
    requires EndsWith(s, t) && EndsWith(t, u)
    ensures EndsWith(s, u)
  {
    assert s[|s| - |u|..] == s[|s| - |t|..][|t| - |u|..];
  }

  /** Joining relative names onto one directory never maps two names to one path. */
  lemma JoinInjective(dir: string, a: string, b: string)
    requires !IsAbsolute(a) && !IsAbsolute(b)
    requires Join(dir, a) == Join(dir, b)
    ensures a == b
  {
    var ja, jb := Join(dir, a), Join(dir, b);
    var k := |ja| - |a|;
    assert |ja| - |b| == k;
    assert a == ja[k..];
    assert b == jb[k..];
  }

  /** The three file formats whose names the conversion step normalises. */
  datatype Ext = Gro | Top | Itp

  function Suffix(e: Ext): (s: string)
    ensures |s| == 4 && s[0] == '.'
  {
    match e
    case Gro => ".gro"
    case Top => ".top"
    case Itp => ".itp"
  }

  /** Name normalisation guarded by length (`len(name) < 4 or name[-4:] != suffix`):
      the suffix is appended exactly when the name does not already end with it. */
  function WithSuffix(name: string, e: Ext): (r: string)
    ensures EndsWith(r, Suffix(e))
    ensures r == (if EndsWith(name, Suffix(e)) then name else name + Suffix(e))
  {
    var sfx := Suffix(e);
    if |name| < 4 || name[|name| - 4..] != sfx then name + sfx else name
  }

  lemma WithSuffixIdempotent(name: string, e: Ext)
    ensures WithSuffix(WithSuffix(name, e), e) == WithSuffix(name, e)
  {
  }

  /** Python's `s[-4:]`: the last four characters, or all of a shorter string. */
  function LastFour(s: string): (r: string)
    ensures |r| == if |s| < 4 then |s| else 4
    ensures EndsWith(s, r)
  {
    if |s| < 4 then s else s[|s| - 4..]
  }

  /** Name normalisation without the length guard (`name[-4:] != suffix`). */
  function WithSuffixUnguarded(name: string, e: Ext): (r: string)
    ensures r == name || r == name + Suffix(e)
  {
    var sfx := Suffix(e);
    if LastFour(name) != sfx then name + sfx else name
  }

  /** The unguarded test agrees with the guarded one on every name: a name
      shorter than four characters never equals a four-character suffix. */
  lemma UnguardedAgrees(name: string, e: Ext)
    ensures WithSuffixUnguarded(name, e) == WithSuffix(name, e)
    ensures EndsWith(WithSuffixUnguarded(name, e), Suffix(e))
  {
    if |name| < 4 {
      assert |LastFour(name)| != |Suffix(e)|;
    }
  }

  /** Two names that end with different format suffixes are different names. */
  lemma DistinctSuffixes(a: string, b: string, ea: Ext, eb: Ext)
    requires ea != eb
    requires EndsWith(a, Suffix(ea)) && EndsWith(b, Suffix(eb))
    ensures a != b
  {
  }

  /** Python's `s.split(".")[0]`: everything before the first dot. */
  function FirstField(s: string): (r: string)
    ensures r <= s
    ensures '.' !in r
    ensures r == s || s[|r|] == '.'
  {
    if s == [] || s[0] == '.' then [] else [s[0]] + FirstField(s[1..])
  }

  /** Cutting `a + rest` at its first dot gives back `a` when `a` has no dot
      and `rest` starts with one. */
  lemma {:induction false} FirstFieldAtDot(a: string, rest: string)
    requires '.' !in a && |rest| > 0 && rest[0] == '.'
    ensures FirstField(a + rest) == a
  {
    var s := a + rest;
    if a != [] {
      assert s[0] == a[0] && s[0] != '.';
      assert s[1..] == a[1..] + rest;
      FirstFieldAtDot(a[1..], rest);
    }
  }

  /** A name without a dot is its own first field. */
  lemma FirstFieldUndotted(s: string)
    ensures '.' !in s ==> FirstField(s) == s
  {
  }
}
