/** String operations shared by the JavaScript front end and the Python
    back end: trimming a set of blank characters from both ends (the two
    languages differ only in the set), ASCII case mapping and decimal
    rendering. */
module Text {

  /** Drops the leading characters that belong to `ws`. */
  function TrimStart(ws: set<char>, s: string): string
    decreases |s|
  {
    if |s| > 0 && s[0] in ws then TrimStart(ws, s[1..]) else s
  }

  /** Drops the trailing characters that belong to `ws`. */
  function TrimEnd(ws: set<char>, s: string): string
    decreases |s|
  {
    if |s| > 0 && s[|s| - 1] in ws then TrimEnd(ws, s[..|s| - 1]) else s
  }

  /** Drops characters of `ws` from both ends. */
  function Trim(ws: set<char>, s: string): string {
    TrimEnd(ws, TrimStart(ws, s))
  }

  /** `TrimStart` removes exactly the leading run of characters of `ws`. */
  lemma {:induction false} TrimStartSpec(ws: set<char>, s: string)
    ensures var r := TrimStart(ws, s);
      && |r| <= |s| && r == s[|s| - |r|..]
      && (r == [] || r[0] !in ws)
      && forall k :: 0 <= k < |s| - |r| ==> s[k] in ws
    decreases |s|
  {
    if |s| > 0 && s[0] in ws {
      TrimStartSpec(ws, s[1..]);
      var r := TrimStart(ws, s[1..]);
      assert s[1..][|s| - 1 - |r|..] == s[|s| - |r|..];
      forall k | 1 <= k < |s| - |r| ensures s[k] in ws {
        assert s[k] == s[1..][k - 1];
      }
    }
  }

  /** `TrimEnd` removes exactly the trailing run of characters of `ws`. */
  lemma {:induction false} TrimEndSpec(ws: set<char>, s: string)
    ensures var r := TrimEnd(ws, s);
      && |r| <= |s| && r == s[..|r|]
      && (r == [] || r[|r| - 1] !in ws)
      && forall k :: |r| <= k < |s| ==> s[k] in ws
    decreases |s|
  {
    if |s| > 0 && s[|s| - 1] in ws {
      TrimEndSpec(ws, s[..|s| - 1]);
      var r := TrimEnd(ws, s[..|s| - 1]);
      assert s[..|s| - 1][..|r|] == s[..|r|];
      forall k | |r| <= k < |s| - 1 ensures s[k] in ws {
        assert s[k] == s[..|s| - 1][k];
      }
    }
  }

  /** Number of leading characters of `s` that belong to `ws`. */
  function LeadingBlanks(ws: set<char>, s: string): nat {
    TrimStartSpec(ws, s);
    |s| - |TrimStart(ws, s)|
  }

  /** The trim is the longest infix of `s` that neither starts nor ends with
      a blank: it begins right after the leading blanks, and everything cut
      off on either side is blank. */
  lemma TrimSpec(ws: set<char>, s: string)
    ensures var r := Trim(ws, s); var lo := LeadingBlanks(ws, s);
      && lo + |r| <= |s|
      && r == s[lo..lo + |r|]
      && (forall k :: 0 <= k < lo ==> s[k] in ws)
      && (forall k :: lo + |r| <= k < |s| ==> s[k] in ws)
      && (r == [] || (r[0] !in ws && r[|r| - 1] !in ws))
  {
    var t := TrimStart(ws, s);
    TrimStartSpec(ws, s);
    TrimEndSpec(ws, t);
    var r := TrimEnd(ws, t);
    var lo := |s| - |t|;
    assert r == t[..|r|];
    forall k | lo + |r| <= k < |s| ensures s[k] in ws {
      assert s[k] == t[k - lo];
    }
    if r != [] {
      assert r[0] == t[0];
    }
  }

  /** A string with no blank at either end is its own trim. */
  lemma TrimFixed(ws: set<char>, s: string)
    requires s == [] || (s[0] !in ws && s[|s| - 1] !in ws)
    ensures Trim(ws, s) == s
  {
    assert TrimStart(ws, s) == s;
    assert TrimEnd(ws, s) == s;
  }

  /** Trimming a trimmed string changes nothing. */
  lemma TrimIdempotent(ws: set<char>, s: string)
    ensures Trim(ws, Trim(ws, s)) == Trim(ws, s)
  {
    TrimSpec(ws, s);
    TrimFixed(ws, Trim(ws, s));
  }

  lemma {:induction false} BlankTrimStart(ws: set<char>, s: string)
    requires forall k :: 0 <= k < |s| ==> s[k] in ws
    ensures TrimStart(ws, s) == []
    decreases |s|
  {
    if |s| > 0 {
      BlankTrimStart(ws, s[1..]);
    }
  }

  /** The trim is "" exactly when every character of `s` is blank. */
  lemma TrimEmptyIffBlank(ws: set<char>, s: string)
    ensures Trim(ws, s) == [] <==> forall k :: 0 <= k < |s| ==> s[k] in ws
  {
    TrimSpec(ws, s);
    if forall k :: 0 <= k < |s| ==> s[k] in ws {
      BlankTrimStart(ws, s);
    }
  }

  /** Two blank sets that agree on every character of `s` trim it alike. */
  lemma {:induction false} TrimStartAgree(ws1: set<char>, ws2: set<char>, s: string)
    requires forall k :: 0 <= k < |s| ==> (s[k] in ws1 <==> s[k] in ws2)
    ensures TrimStart(ws1, s) == TrimStart(ws2, s)
    decreases |s|
  {
    if |s| > 0 && s[0] in ws1 {
      TrimStartAgree(ws1, ws2, s[1..]);
    }
  }

  lemma {:induction false} TrimEndAgree(ws1: set<char>, ws2: set<char>, s: string)
    requires forall k :: 0 <= k < |s| ==> (s[k] in ws1 <==> s[k] in ws2)
    ensures TrimEnd(ws1, s) == TrimEnd(ws2, s)
    decreases |s|
  {
    if |s| > 0 && s[|s| - 1] in ws1 {
      TrimEndAgree(ws1, ws2, s[..|s| - 1]);
    }
  }

  lemma TrimAgree(ws1: set<char>, ws2: set<char>, s: string)
    requires forall k :: 0 <= k < |s| ==> (s[k] in ws1 <==> s[k] in ws2)
    ensures Trim(ws1, s) == Trim(ws2, s)
  {
    TrimStartAgree(ws1, ws2, s);
    var t := TrimStart(ws1, s);
    TrimStartSpec(ws1, s);
    forall k | 0 <= k < |t| ensures (t[k] in ws1 <==> t[k] in ws2) {
      assert t[k] == s[|s| - |t| + k];
    }
    TrimEndAgree(ws1, ws2, t);
  }

  /** ASCII case mapping (the model does not cover non-ASCII letters). */
  function LowerChar(c: char): (r: char)
    ensures 'A' <= c <= 'Z' ==> r as int == c as int + 32
    ensures !('A' <= c <= 'Z') ==> r == c
  {
    if 'A' <= c <= 'Z' then (c as int + 32) as char else c
  }

  function UpperChar(c: char): (r: char)
    ensures 'a' <= c <= 'z' ==> r as int == c as int - 32
    ensures !('a' <= c <= 'z') ==> r == c
  {
    if 'a' <= c <= 'z' then (c as int - 32) as char else c
  }

  /** `s.toLowerCase()` in JavaScript, `s.lower()` in Python. */
  function ToLower(s: string): (r: string)
    ensures |r| == |s|
    ensures forall k :: 0 <= k < |s| ==> r[k] == LowerChar(s[k])
  {
    seq(|s|, k requires 0 <= k < |s| => LowerChar(s[k]))
  }

  /** `s.toUpperCase()` in JavaScript, `s.upper()` in Python. */
  function ToUpper(s: string): (r: string)
    ensures |r| == |s|
    ensures forall k :: 0 <= k < |s| ==> r[k] == UpperChar(s[k])
  {
    seq(|s|, k requires 0 <= k < |s| => UpperChar(s[k]))
  }

  /** Decimal rendering of a natural number, as a template literal `${n}` gives it. */
  function NatToString(n: nat): (r: string)
    ensures |r| > 0
    ensures forall k :: 0 <= k < |r| ==> '0' <= r[k] <= '9'
  {
    var d := ['0' + (n % 10) as char];
    if n < 10 then d else NatToString(n / 10) + d
  }
}
