/**
 * The two java.lang.String operations the share hoster applies to property values:
 * split on a one-character separator and trim.
 */
module JavaStrings {

  /** Number of occurrences of c in s. */
  function Occurrences(s: string, c: char): nat
  {
    if s == [] then 0 else (if s[0] == c then 1 else 0) + Occurrences(s[1..], c)
  }

  /** The pieces glued back together with one separator between neighbours. */
  function Join(parts: seq<string>, sep: char): string
  {
    if |parts| == 0 then ""
    else if |parts| == 1 then parts[0]
    else parts[0] + [sep] + Join(parts[1..], sep)
  }

  /**
   * Every piece of s between separators, empty pieces included: cutting s at
   * each separator gives one more piece than there are separators, no piece
   * holds a separator, and gluing the pieces back gives s.
   */
  function Fields(s: string, sep: char): (r: seq<string>)
    ensures |r| == Occurrences(s, sep) + 1
    ensures forall i :: 0 <= i < |r| ==> sep !in r[i]
    ensures Join(r, sep) == s
    ensures s != [] && s[|s| - 1] != sep ==> r[|r| - 1] != []
    decreases |s|
  {
    if s == [] then [""]
    else
      var rest := Fields(s[1..], sep);
      if s[0] == sep then
        [""] + rest
      else
        var r := [[s[0]] + rest[0]] + rest[1..];
        assert r[1..] == rest[1..];
        assert s == [s[0]] + s[1..];
        r
  }

  /** parts without its run of trailing empty strings. */
  function DropTrailingEmpty(parts: seq<string>): (r: seq<string>)
    ensures r <= parts
    ensures r == [] || r[|r| - 1] != []
    ensures forall i :: |r| <= i < |parts| ==> parts[i] == []
  {
    if parts == [] || parts[|parts| - 1] != [] then parts
    else DropTrailingEmpty(parts[..|parts| - 1])
  }

  /**
   * Java's s.split(sep) for a separator that is not a regular-expression
   * metacharacter and no limit: when sep does not occur the result is [s]
   * (so "" splits to [""]); otherwise the fields with trailing empty ones removed.
   */
  function Split(s: string, sep: char): (r: seq<string>)
    ensures sep !in s ==> r == [s]
    ensures sep in s ==> r <= Fields(s, sep) && (r == [] || r[|r| - 1] != [])
    ensures forall i :: |r| <= i < |Fields(s, sep)| ==> Fields(s, sep)[i] == []
    ensures forall i :: 0 <= i < |r| ==> sep !in r[i]
  {
    if sep !in s then [s] else DropTrailingEmpty(Fields(s, sep))
  }

  /** When s does not end in the separator, split loses nothing: joining the pieces gives s back. */
  lemma SplitRejoin(s: string, sep: char)
    requires s == [] || s[|s| - 1] != sep
    ensures Join(Split(s, sep), sep) == s
  {
  }

  /** s without its leading characters at or below U+0020. */
  function TrimStart(s: string): string
  {
    if s != [] && s[0] <= ' ' then TrimStart(s[1..]) else s
  }

  /** s without its trailing characters at or below U+0020. */
  function TrimEnd(s: string): string
  {
    if s != [] && s[|s| - 1] <= ' ' then TrimEnd(s[..|s| - 1]) else s
  }

  /** Java's s.trim(). */
  function Trim(s: string): string
  {
    TrimEnd(TrimStart(s))
  }

  /** TrimStart keeps a suffix that does not start with a blank, and cuts off blanks only. */
  lemma {:induction false} TrimStartSuffix(s: string)
    ensures |TrimStart(s)| <= |s| && TrimStart(s) == s[|s| - |TrimStart(s)|..]
    ensures TrimStart(s) != [] ==> TrimStart(s)[0] > ' '
    ensures forall k :: 0 <= k < |s| - |TrimStart(s)| ==> s[k] <= ' '
    decreases |s|
  {
    if s != [] && s[0] <= ' ' {
      TrimStartSuffix(s[1..]);
      assert forall k :: 1 <= k < |s| ==> s[k] == s[1..][k - 1];
    }
  }

  /** TrimEnd keeps a prefix that does not end with a blank, and cuts off blanks only. */
  lemma {:induction false} TrimEndPrefix(s: string)
    ensures |TrimEnd(s)| <= |s| && TrimEnd(s) == s[..|TrimEnd(s)|]
    ensures TrimEnd(s) != [] ==> TrimEnd(s)[|TrimEnd(s)| - 1] > ' '
    ensures forall k :: |TrimEnd(s)| <= k < |s| ==> s[k] <= ' '
    decreases |s|
  {
    if s != [] && s[|s| - 1] <= ' ' {
      TrimEndPrefix(s[..|s| - 1]);
    }
  }

  /**
   * Java's trim() gives the infix of s between its leading and its trailing
   * characters at or below U+0020: it neither starts nor ends with one, and
   * it is empty exactly when s consists of such characters only.
   */
  lemma TrimInfix(s: string)
    ensures var i := |s| - |TrimStart(s)|; 0 <= i && i + |Trim(s)| <= |s| && Trim(s) == s[i..i + |Trim(s)|]
    ensures Trim(s) != [] ==> Trim(s)[0] > ' ' && Trim(s)[|Trim(s)| - 1] > ' '
    ensures Trim(s) == [] <==> forall k :: 0 <= k < |s| ==> s[k] <= ' '
  {
    var t := TrimStart(s);
    TrimStartSuffix(s);
    TrimEndPrefix(t);
    var i := |s| - |t|;
    assert forall k :: i <= k < |s| ==> s[k] == t[k - i];
    if Trim(s) != [] {
      assert s[i] == Trim(s)[0];
    }
  }

  /** Trimming twice is trimming once. */
  lemma TrimIdempotent(s: string)
    ensures Trim(Trim(s)) == Trim(s)
  {
    var r := Trim(s);
    TrimInfix(s);
    assert TrimStart(r) == r;
    assert TrimEnd(r) == r;
  }
}
