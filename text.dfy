/**
 * The two string utilities the configurations rely on: Java's String.trim
 * (drop leading and trailing characters at or below U+0020) and Jenkins'
 * Util.fixEmptyAndTrim (null or blank becomes null, anything else is
 * trimmed).  A Java `String` that may be null is an `Option<string>`.
 */
module Text {
  import opened Ftp

  /** Drops the leading characters at or below U+0020. */
  function TrimStart(s: string): string {
    if s != [] && s[0] <= ' ' then TrimStart(s[1..]) else s
  }

  /** Drops the trailing characters at or below U+0020. */
  function TrimEnd(s: string): string {
    if s != [] && s[|s| - 1] <= ' ' then TrimEnd(s[..|s| - 1]) else s
  }

  /** TrimStart keeps a suffix that starts with a printable character and
      drops only blanks. */
  lemma {:induction false} TrimStartSpec(s: string)
    ensures |TrimStart(s)| <= |s| && TrimStart(s) == s[|s| - |TrimStart(s)|..]
    ensures TrimStart(s) == [] || TrimStart(s)[0] > ' '
    ensures forall j :: 0 <= j < |s| - |TrimStart(s)| ==> s[j] <= ' '
  {
    if s != [] && s[0] <= ' ' {
      TrimStartSpec(s[1..]);
      assert s[1..][|s[1..]| - |TrimStart(s)|..] == s[|s| - |TrimStart(s)|..];
      forall j | 0 <= j < |s| - |TrimStart(s)|
        ensures s[j] <= ' '
      {
        if j > 0 {
          assert s[j] == s[1..][j - 1];
        }
      }
    }
  }

  /** TrimEnd keeps a prefix that ends with a printable character and drops
      only blanks. */
  lemma {:induction false} TrimEndSpec(s: string)
    ensures |TrimEnd(s)| <= |s| && TrimEnd(s) == s[..|TrimEnd(s)|]
    ensures TrimEnd(s) == [] || TrimEnd(s)[|TrimEnd(s)| - 1] > ' '
    ensures forall j :: |TrimEnd(s)| <= j < |s| ==> s[j] <= ' '
  {
    if s != [] && s[|s| - 1] <= ' ' {
      var t := s[..|s| - 1];
      TrimEndSpec(t);
      assert t[..|TrimEnd(s)|] == s[..|TrimEnd(s)|];
      forall j | |TrimEnd(s)| <= j < |s|
        ensures s[j] <= ' '
      {
        if j < |s| - 1 {
          assert s[j] == t[j];
        }
      }
    }
  }

  /** String.trim: the result starts and ends with a printable character. */
  function Trim(s: string): (r: string)
    ensures r == [] || (r[0] > ' ' && r[|r| - 1] > ' ')
  {
    TrimStartSpec(s);
    TrimEndSpec(TrimStart(s));
    TrimEndKeepsStart(TrimStart(s));
    TrimEnd(TrimStart(s))
  }

  /** String.trim removes exactly the blanks at both ends: the result is a
      slice of the input, and every character outside it is at or below
      U+0020. */
  lemma TrimSpec(s: string)
    ensures exists i, j ::
              && 0 <= i <= j <= |s| && Trim(s) == s[i..j]
              && (forall k :: 0 <= k < i ==> s[k] <= ' ')
              && (forall k :: j <= k < |s| ==> s[k] <= ' ')
  {
    var t := TrimStart(s);
    TrimStartSpec(s);
    TrimEndSpec(t);
    var i := |s| - |t|;
    var j := i + |TrimEnd(t)|;
    assert Trim(s) == s[i..j];
    forall k | j <= k < |s|
      ensures s[k] <= ' '
    {
      assert s[k] == t[k - i];
    }
  }

  lemma {:induction false} TrimIdempotent(s: string)
    ensures Trim(Trim(s)) == Trim(s)
  {
    var r := Trim(s);
    if r != [] {
      assert TrimStart(r) == r;
      assert TrimEnd(r) == r;
    } else {
      assert TrimStart(r) == r;
    }
  }

  /** Dropping trailing blanks keeps a printable first character. */
  lemma {:induction false} TrimEndKeepsStart(t: string)
    requires t == [] || t[0] > ' '
    ensures TrimEnd(t) == [] || TrimEnd(t)[0] > ' '
  {
    if t != [] && t[|t| - 1] <= ' ' {
      TrimEndKeepsStart(t[..|t| - 1]);
    }
  }

  /** A string trims to nothing exactly when every character is blank. */
  lemma {:induction false} TrimEmptyIffBlank(s: string)
    ensures Trim(s) == [] <==> forall j :: 0 <= j < |s| ==> s[j] <= ' '
  {
    var t := TrimStart(s);
    TrimStartSpec(s);
    TrimEndSpec(t);
    if t != [] {
      assert TrimEnd(t) != [];
      assert s[|s| - |t|] == t[0];
    }
  }

  /** Null, empty or made of blank characters only. */
  predicate IsBlank(s: Option<string>) {
    s.None? || forall j :: 0 <= j < |s.value| ==> s.value[j] <= ' '
  }

  /** Util.fixEmptyAndTrim. */
  function FixEmptyAndTrim(s: Option<string>): (r: Option<string>)
    ensures r.None? <==> IsBlank(s)
    ensures r.Some? ==> r.value != [] && r.value[0] > ' ' && r.value[|r.value| - 1] > ' '
    ensures r.Some? ==> r.value == Trim(s.value)
  {
    if s.None? then None
    else
      TrimEmptyIffBlank(s.value);
      if Trim(s.value) == [] then None else Some(Trim(s.value))
  }

  /** Normalising twice changes nothing: a stored control encoding is
      already in normal form. */
  lemma FixEmptyAndTrimIdempotent(s: Option<string>)
    ensures FixEmptyAndTrim(FixEmptyAndTrim(s)) == FixEmptyAndTrim(s)
  {
    if !IsBlank(s) {
      TrimIdempotent(s.value);
    }
  }
}
