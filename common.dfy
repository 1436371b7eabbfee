/** Vocabulary shared by every component: optional values and results, values
    thrown by backend calls, user-facing notifications, the JavaScript string
    operations the handlers rely on (trim, toLowerCase, includes, the regular
    expression class \s), and order-preserving filtering of lists, which is
    what Array.prototype.filter does to the list state of the pages. */
module Common {

  datatype Option<T> = None | Some(value: T)

  datatype Result<T, E> = Success(value: T) | Failure(error: E)

  /** A value thrown by a backend call or a helper, as the handlers inspect it:
      `message` is "" when the value carries no message, `status` is the HTTP
      status when it carries one, and `isErrorInstance` says whether it passes
      `instanceof Error`. */
  datatype Thrown = Thrown(message: string, status: Option<int>, isErrorInstance: bool)

  /** A transient notification shown by a handler (the `toast` calls). */
  datatype Toast = ErrorToast(text: string) | SuccessToast(text: string) | InfoToast(text: string)

  /** `error.message || fallback`: the thrown value's own message, or the
      handler's fixed text when it carries none. */
  function MessageOr(e: Thrown, fallback: string): (text: string)
    ensures e.message != "" ==> text == e.message
    ensures e.message == "" ==> text == fallback
  {
    if e.message != "" then e.message else fallback
  }

  /** The three paths every guard treats as reachable without a session. */
  const PublicPaths: seq<string> := ["/login", "/forgot-password", "/reset-password"]

  // ---------------------------------------------------------------------------
  // Whitespace, trim and blank checks

  /** ECMAScript WhiteSpace and LineTerminator: what `trim` removes and what the
      regular expression class \s matches. */
  predicate IsWhitespace(c: char) {
    || c == ' ' || c == '\t' || c == '\n' || c == '\r'
    || c == '\U{000B}' || c == '\U{000C}' || c == '\U{00A0}' || c == '\U{1680}'
    || ('\U{2000}' <= c <= '\U{200A}')
    || c == '\U{2028}' || c == '\U{2029}' || c == '\U{202F}' || c == '\U{205F}'
    || c == '\U{3000}' || c == '\U{FEFF}'
  }

  function TrimStart(s: string): (r: string)
    ensures |r| <= |s| && r == s[|s| - |r|..]
    ensures r != [] ==> !IsWhitespace(r[0])
    ensures forall i :: 0 <= i < |s| - |r| ==> IsWhitespace(s[i])
  {
    if s != [] && IsWhitespace(s[0]) then TrimStart(s[1..]) else s
  }

  function TrimEnd(s: string): (r: string)
    ensures |r| <= |s| && r == s[..|r|]
    ensures r != [] ==> !IsWhitespace(r[|r| - 1])
    ensures forall i :: |r| <= i < |s| ==> IsWhitespace(s[i])
  {
    if s != [] && IsWhitespace(s[|s| - 1]) then TrimEnd(s[..|s| - 1]) else s
  }

  /** String.prototype.trim. */
  function Trim(s: string): string {
    TrimEnd(TrimStart(s))
  }

  /** Every character is whitespace (the empty string included). */
  predicate IsBlank(s: string) {
    forall i :: 0 <= i < |s| ==> IsWhitespace(s[i])
  }

  /** `!s.trim()` holds exactly for the blank strings. */
  lemma TrimEmptyIffBlank(s: string)
    ensures Trim(s) == "" <==> IsBlank(s)
  {
    if IsBlank(s) {
      BlankTrimsToEmpty(s);
    } else {
      var k :| 0 <= k < |s| && !IsWhitespace(s[k]);
      TrimKeeps(s, k);
    }
  }

  lemma {:induction false} BlankTrimsToEmpty(s: string)
    requires IsBlank(s)
    ensures TrimStart(s) == [] && Trim(s) == []
  {
    if s != [] {
      var tail := s[1..];
      assert IsBlank(tail) by {
        forall i | 0 <= i < |tail|
          ensures IsWhitespace(tail[i])
        {
          assert tail[i] == s[i + 1];
        }
      }
      BlankTrimsToEmpty(tail);
    }
  }

  /** A character that is not whitespace survives the trim. */
  lemma TrimKeeps(s: string, k: nat)
    requires k < |s| && !IsWhitespace(s[k])
    ensures Trim(s) != []
  {
    var t := TrimStart(s);
    var j := k - (|s| - |t|);
    assert 0 <= j < |t| && t[j] == s[k];
    var r := TrimEnd(t);
    assert |r| > j;
  }

  // ---------------------------------------------------------------------------
  // Case folding and substring search

  /** String.prototype.toLowerCase on one character, for the Basic Latin and
      Latin-1 letters (the alphabets of the application's Portuguese data). */
  function LowerChar(c: char): char {
    if 'A' <= c <= 'Z' || ('\U{00C0}' <= c <= '\U{00DE}' && c != '\U{00D7}') then
      (c as int + 32) as char
    else
      c
  }

  function ToLower(s: string): (r: string)
    ensures |r| == |s|
    ensures forall i :: 0 <= i < |s| ==> r[i] == LowerChar(s[i])
  {
    if s == [] then [] else [LowerChar(s[0])] + ToLower(s[1..])
  }

  /** String.prototype.includes. */
  predicate Contains(s: string, sub: string) {
    exists i :: 0 <= i <= |s| && sub <= s[i..]
  }

  /** `s.includes("")` holds for every `s`. */
  lemma ContainsEmpty(s: string)
    ensures Contains(s, "")
  {
    assert "" <= s[0..];
  }

  /** toLowerCase distributes over concatenation. */
  lemma ToLowerAppend(a: string, b: string)
    ensures ToLower(a + b) == ToLower(a) + ToLower(b)
  {
    var l, r := ToLower(a + b), ToLower(a) + ToLower(b);
    assert forall i :: 0 <= i < |l| ==> l[i] == r[i];
  }

  /** A string found in `a` is found in `a + b` and in `b + a`. */
  lemma ContainsExtend(a: string, b: string, sub: string)
    requires Contains(a, sub)
    ensures Contains(a + b, sub) && Contains(b + a, sub)
  {
    var i :| 0 <= i <= |a| && sub <= a[i..];
    assert sub <= (a + b)[i..] by {
      assert forall k :: 0 <= k < |sub| ==> (a + b)[i..][k] == a[i..][k];
    }
    assert sub <= (b + a)[|b| + i..] by {
      assert (b + a)[|b| + i..] == a[i..];
    }
  }

  // ---------------------------------------------------------------------------
  // File names

  /** `name.split('.').pop()`: the text after the last '.', or the whole name
      when it has no '.'. */
  function AfterLastDot(name: string): (r: string)
    ensures |r| <= |name| && r == name[|name| - |r|..]
    ensures '.' !in r
    ensures |r| < |name| ==> name[|name| - |r| - 1] == '.'
  {
    if name == [] then []
    else if name[|name| - 1] == '.' then []
    else AfterLastDot(name[..|name| - 1]) + [name[|name| - 1]]
  }

  /** `name.split('.').pop()?.toLowerCase()`. */
  function FileExtension(name: string): string {
    ToLower(AfterLastDot(name))
  }

  // ---------------------------------------------------------------------------
  // Order-preserving filtering

  /** Array.prototype.filter. */
  function Filter<T(==)>(p: T -> bool, s: seq<T>): (r: seq<T>)
    ensures |r| <= |s|
    ensures forall i :: 0 <= i < |r| ==> r[i] in s && p(r[i])
    ensures forall i :: 0 <= i < |s| && p(s[i]) ==> s[i] in r
  {
    if s == [] then [] else (if p(s[0]) then [s[0]] else []) + Filter(p, s[1..])
  }

  /** `a` is `b` with some elements left out, the others in their order. */
  predicate IsSubsequence<T(==)>(a: seq<T>, b: seq<T>) {
    if a == [] then true
    else if b == [] then false
    else if a[0] == b[0] then IsSubsequence(a[1..], b[1..])
    else IsSubsequence(a, b[1..])
  }

  /** The number of elements of `s` satisfying `p`. */
  function CountWhere<T>(p: T -> bool, s: seq<T>): nat {
    if s == [] then 0 else (if p(s[0]) then 1 else 0) + CountWhere(p, s[1..])
  }

  lemma {:induction false} FilterIsSubsequence<T>(p: T -> bool, s: seq<T>)
    ensures IsSubsequence(Filter(p, s), s)
  {
    if s != [] {
      FilterIsSubsequence(p, s[1..]);
      if !p(s[0]) {
        var f := Filter(p, s[1..]);
        assert Filter(p, s) == f;
        assert f != [] ==> f[0] != s[0];
      }
    }
  }

  /** The filtered list is exactly as long as the count of matching elements. */
  lemma {:induction false} FilterLength<T>(p: T -> bool, s: seq<T>)
    ensures |Filter(p, s)| == CountWhere(p, s)
  {
    if s != [] {
      FilterLength(p, s[1..]);
    }
  }

  /** Filtering distributes over concatenation. */
  lemma {:induction false} FilterAppend<T>(p: T -> bool, a: seq<T>, b: seq<T>)
    ensures Filter(p, a + b) == Filter(p, a) + Filter(p, b)
  {
    if a == [] {
      assert a + b == b;
    } else {
      assert (a + b)[1..] == a[1..] + b;
      FilterAppend(p, a[1..], b);
    }
  }

  /** Filtering a list none of whose elements fails the test changes nothing. */
  lemma {:induction false} FilterKeepsAll<T>(p: T -> bool, s: seq<T>)
    requires forall i :: 0 <= i < |s| ==> p(s[i])
    ensures Filter(p, s) == s
  {
    if s != [] {
      FilterKeepsAll(p, s[1..]);
    }
  }

  /** A count never exceeds the length, and counts of a test and of its
      negation add up to the length. */
  lemma {:induction false} CountSplit<T>(p: T -> bool, q: T -> bool, s: seq<T>)
    requires forall i :: 0 <= i < |s| ==> q(s[i]) == !p(s[i])
    ensures CountWhere(p, s) + CountWhere(q, s) == |s|
  {
    if s != [] {
      CountSplit(p, q, s[1..]);
    }
  }

  /** A test that implies another is counted at most as often. */
  lemma {:induction false} CountMonotone<T>(p: T -> bool, q: T -> bool, s: seq<T>)
    requires forall i :: 0 <= i < |s| ==> p(s[i]) ==> q(s[i])
    ensures CountWhere(p, s) <= CountWhere(q, s)
  {
    if s != [] {
      CountMonotone(p, q, s[1..]);
    }
  }
}
