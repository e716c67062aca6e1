/** Byte strings as PHP sees them, and the few byte-level helpers the core relies on. */
module Text {

  /** One byte. PHP strings are byte strings; each byte is kept as the char with that code. */
  type Byte = c: char | c as int < 256

  type Bytes = seq<Byte>

  datatype Option<+T> = None | Some(value: T)

  /** A word character for `\b`: `[A-Za-z0-9_]` (PCRE's default tables, no Unicode). */
  predicate IsWord(c: Byte)
  {
    ('A' <= c <= 'Z') || ('a' <= c <= 'z') || ('0' <= c <= '9') || c == '_'
  }

  /**
   * ASCII case folding: the byte with upper-case letters mapped to lower case. The
   * result is never an upper-case letter and has the same upper-case form as c.
   */
  function Lower(c: Byte): (d: Byte)
    ensures !('A' <= d <= 'Z')
    ensures Upper(d) == Upper(c)
  {
    if 'A' <= c <= 'Z' then (c as int + 32) as char else c
  }

  /** The byte with lower-case letters mapped to upper case: never a lower-case letter, and a word byte exactly when c is. */
  function Upper(c: Byte): (d: Byte)
    ensures !('a' <= d <= 'z')
    ensures IsWord(d) == IsWord(c)
  {
    if 'a' <= c <= 'z' then (c as int - 32) as char else c
  }

  /** Folding either way and back gives the same folded form: a letter keeps its identity. */
  lemma CaseRoundTrip(c: Byte)
    ensures Lower(Upper(c)) == Lower(c)
    ensures ('a' <= c <= 'z') ==> Lower(Upper(c)) == c
    ensures ('A' <= c <= 'Z') ==> Upper(Lower(c)) == c
  {
  }

  /** The bytes PHP's `trim` strips by default: space, tab, LF, CR, NUL and vertical tab. */
  predicate IsTrimmable(c: Byte)
  {
    c == ' ' || c == '\t' || c == '\n' || c == '\r' || c == '\0' || c == 11 as char
  }

  /** Drops the leading run of trimmable bytes. */
  function TrimStart(s: Bytes): (r: Bytes)
    ensures |r| <= |s| && r == s[|s| - |r|..]
    ensures forall k :: 0 <= k < |s| - |r| ==> IsTrimmable(s[k])
    ensures r == [] || !IsTrimmable(r[0])
  {
    if s != [] && IsTrimmable(s[0]) then TrimStart(s[1..]) else s
  }

  /** Drops the trailing run of trimmable bytes. */
  function TrimEnd(s: Bytes): (r: Bytes)
    ensures |r| <= |s| && r == s[..|r|]
    ensures forall k :: |r| <= k < |s| ==> IsTrimmable(s[k])
    ensures r == [] || !IsTrimmable(r[|r| - 1])
  {
    if s != [] && IsTrimmable(s[|s| - 1]) then TrimEnd(s[..|s| - 1]) else s
  }

  /**
   * PHP `trim($s)` with its default character list: the result is what is left of s once
   * its leading and its trailing run of trimmable bytes are removed.
   */
  function Trim(s: Bytes): (r: Bytes)
    ensures exists a, b ::
              && 0 <= a <= b <= |s| && r == s[a..b]
              && (forall k :: 0 <= k < a ==> IsTrimmable(s[k]))
              && (forall k :: b <= k < |s| ==> IsTrimmable(s[k]))
    ensures r == [] || (!IsTrimmable(r[0]) && !IsTrimmable(r[|r| - 1]))
  {
    var t := TrimStart(s);
    var r := TrimEnd(t);
    TrimSlice(s, t, r);
    r
  }

  /** Removing a trimmable head, then a trimmable tail, leaves a slice of s between the two runs. */
  lemma TrimSlice(s: Bytes, t: Bytes, r: Bytes)
    requires |t| <= |s| && t == s[|s| - |t|..] && (forall k :: 0 <= k < |s| - |t| ==> IsTrimmable(s[k]))
    requires |r| <= |t| && r == t[..|r|] && (forall k :: |r| <= k < |t| ==> IsTrimmable(t[k]))
    ensures var a := |s| - |t|; var b := a + |r|;
      0 <= a <= b <= |s| && r == s[a..b]
      && (forall k :: 0 <= k < a ==> IsTrimmable(s[k]))
      && (forall k :: b <= k < |s| ==> IsTrimmable(s[k]))
  {
    var a := |s| - |t|;
    assert forall k :: a + |r| <= k < |s| ==> s[k] == t[k - a];
  }

  /** Concatenation is associative; stated once so that proofs can regroup cheaply. */
  lemma Assoc(a: Bytes, b: Bytes, c: Bytes)
    ensures a + (b + c) == a + b + c
  {
  }

  /** The head and the tail of a concatenation whose left part is not empty. */
  lemma ConsAppend<T>(a: seq<T>, b: seq<T>)
    requires a != []
    ensures (a + b)[0] == a[0] && (a + b)[1..] == a[1..] + b
  {
  }

  /** Trimming a space-led text that ends with a non-trimmable byte drops exactly the space. */
  lemma TrimLeadingSpace(s: Bytes)
    requires |s| >= 2 && s[0] == ' ' && !IsTrimmable(s[1]) && !IsTrimmable(s[|s| - 1])
    ensures Trim(s) == s[1..]
  {
    assert TrimStart(s) == TrimStart(s[1..]) == s[1..];
  }
}
