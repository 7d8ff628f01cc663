/** Shared vocabulary of the site's client logic: JavaScript truthiness of
    optional strings, the whitespace class used by `trim()` and by the regular
    expression `\s`, `split`/`join` on a one-character separator, and the
    identity-provider user record that several pages read. */
module Common {

  datatype Option<+T> = None | Some(value: T)

  /** The outcome of a validation step: the value built, or the message
      shown to the user. */
  datatype Result<+T> = Success(value: T) | Failure(error: string)

  /** The `{ loading, error, success }` status object of a form. */
  datatype FormStatus = FormStatus(loading: bool, error: string, success: string)

  /** The three shapes a form status takes: idle with at most one of an
      error and a success message, or loading with neither. */
  predicate StatusValid(s: FormStatus) {
    && !(s.error != "" && s.success != "")
    && (s.loading ==> s.error == "" && s.success == "")
  }

  /** The write-capable document-store client: absent when no write token is
      configured. */
  datatype WriteClient = Unconfigured | Configured

  /** How an awaited `create` call on the document store settles. */
  datatype CreateOutcome = Created | CreateFailed

  /** The fields of the signed-in user that the pages read (each may be
      missing); the user itself may be missing too (`user?.…`). */
  datatype User = User(id: Option<string>, fullName: Option<string>, primaryEmail: Option<string>)

  /** The `client` sub-object stored on quotation and payment requests. */
  datatype ClientInfo = ClientInfo(clerkUserId: string, name: string, email: string)

  /** A JavaScript string is truthy exactly when it is non-empty. */
  predicate Truthy(s: string) { s != "" }

  /** `x || d` for an optional string: the value when it is present and
      non-empty, the default otherwise. */
  function Or(x: Option<string>, d: string): (r: string)
    ensures x.Some? && x.value != "" ==> r == x.value
    ensures (x.None? || x.value == "") ==> r == d
  {
    match x
    case Some(v) => if v != "" then v else d
    case None => d
  }

  /** `s || d` for a string that is always present. */
  function OrElse(s: string, d: string): (r: string)
    ensures s != "" ==> r == s
    ensures s == "" ==> r == d
  {
    if s != "" then s else d
  }

  function UserId(u: Option<User>): Option<string> {
    if u.Some? then u.value.id else None
  }

  function UserFullName(u: Option<User>): Option<string> {
    if u.Some? then u.value.fullName else None
  }

  function UserEmail(u: Option<User>): Option<string> {
    if u.Some? then u.value.primaryEmail else None
  }

  /** `s.startsWith(p)`. */
  predicate StartsWith(s: string, p: string) {
    |p| <= |s| && s[..|p|] == p
  }

  /** ECMAScript's WhiteSpace and LineTerminator code points: the characters
      that `String.prototype.trim` removes and that `\s` matches. */
  predicate IsWhitespace(c: char) {
    || c == '\t' || c == '\n' || c == '\U{000B}' || c == '\U{000C}' || c == '\r'
    || c == ' ' || c == '\U{00A0}' || c == '\U{1680}'
    || ('\U{2000}' <= c <= '\U{200A}')
    || c == '\U{2028}' || c == '\U{2029}' || c == '\U{202F}' || c == '\U{205F}'
    || c == '\U{3000}' || c == '\U{FEFF}'
  }

  predicate NoWhitespace(s: string) {
    forall i :: 0 <= i < |s| ==> !IsWhitespace(s[i])
  }

  predicate AllWhitespace(s: string) {
    forall i :: 0 <= i < |s| ==> IsWhitespace(s[i])
  }

  /** Drops the leading run of whitespace. */
  function TrimStart(s: string): (r: string)
    ensures |r| <= |s| && r == s[|s| - |r|..]
    ensures AllWhitespace(s[..|s| - |r|])
    ensures r == [] || !IsWhitespace(r[0])
  {
    if |s| > 0 && IsWhitespace(s[0]) then
      var r := TrimStart(s[1..]);
      assert s[..|s| - |r|] == [s[0]] + s[1..][..|s| - 1 - |r|];
      r
    else s
  }

  /** Drops the trailing run of whitespace. */
  function TrimEnd(s: string): (r: string)
    ensures |r| <= |s| && r == s[..|r|]
    ensures AllWhitespace(s[|r|..])
    ensures r == [] || !IsWhitespace(r[|r| - 1])
  {
    if |s| > 0 && IsWhitespace(s[|s| - 1]) then
      var r := TrimEnd(s[..|s| - 1]);
      assert s[|r|..] == s[..|s| - 1][|r|..] + [s[|s| - 1]];
      r
    else s
  }

  /** `s.trim()`: the slice of `s` between its leading and trailing
      whitespace runs. */
  function Trim(s: string): (r: string)
    ensures exists i :: TrimmedAt(s, i, r)
    ensures r == [] || (!IsWhitespace(r[0]) && !IsWhitespace(r[|r| - 1]))
  {
    var t := TrimStart(s);
    var r := TrimEnd(t);
    TrimmedAtSuffix(s, t, r);
    r
  }

  /** A whitespace-free block of a suffix, whose end is whitespace, is a
      trimmed block of the whole string. */
  lemma TrimmedAtSuffix(s: string, t: string, r: string)
    requires |t| <= |s| && t == s[|s| - |t|..] && AllWhitespace(s[..|s| - |t|])
    requires |r| <= |t| && r == t[..|r|] && AllWhitespace(t[|r|..])
    ensures TrimmedAt(s, |s| - |t|, r)
  {
    var i := |s| - |t|;
    assert s[i..i + |r|] == t[..|r|];
    assert s[i + |r|..] == t[|r|..];
  }

  /** `r` is the block of `s` at offset `i`, with only whitespace around it. */
  predicate TrimmedAt(s: string, i: int, r: string) {
    && 0 <= i <= |s| - |r| && s[i..i + |r|] == r
    && AllWhitespace(s[..i]) && AllWhitespace(s[i + |r|..])
  }

  /** `parts.join(sep)`. */
  function Join(parts: seq<string>, sep: string): string {
    if |parts| == 0 then ""
    else if |parts| == 1 then parts[0]
    else parts[0] + sep + Join(parts[1..], sep)
  }

  /** Index of the first occurrence of `c` in `s`, or `|s|` when there is none. */
  function IndexOf(s: string, c: char): (k: nat)
    ensures k <= |s|
    ensures k < |s| ==> s[k] == c
    ensures forall j :: 0 <= j < k ==> s[j] != c
  {
    if |s| == 0 then 0
    else if s[0] == c then 0
    else 1 + IndexOf(s[1..], c)
  }

  /** `s.split(c)` for a one-character separator: it always yields at least
      one part, and no part contains the separator. */
  function Split(s: string, c: char): (parts: seq<string>)
    ensures |parts| >= 1
    ensures forall p :: p in parts ==> c !in p
    decreases |s|
  {
    var k := IndexOf(s, c);
    if k == |s| then [s] else [s[..k]] + Split(s[k + 1..], c)
  }

  /** Splitting and re-joining with the same separator gives back the input. */
  lemma {:induction false} JoinSplit(s: string, c: char)
    ensures Join(Split(s, c), [c]) == s
    decreases |s|
  {
    var k := IndexOf(s, c);
    if k < |s| {
      var rest := s[k + 1..];
      JoinSplit(rest, c);
      JoinCons(s[..k], Split(rest, c), [c]);
      assert s == s[..k] + [c] + rest;
    }
  }

  /** Joining a part in front of at least one more part puts the separator
      between them. */
  lemma JoinCons(p: string, rest: seq<string>, sep: string)
    requires |rest| >= 1
    ensures Join([p] + rest, sep) == p + sep + Join(rest, sep)
  {
    assert ([p] + rest)[1..] == rest;
  }

  /** Joining parts that do not contain the separator and splitting again
      gives back the parts. */
  lemma {:induction false} SplitJoin(parts: seq<string>, c: char)
    requires |parts| >= 1
    requires forall p :: p in parts ==> c !in p
    ensures Split(Join(parts, [c]), c) == parts
  {
    if |parts| == 1 {
      IndexOfAbsent(parts[0], c);
    } else {
      var tail := parts[1..];
      assert forall p :: p in tail ==> p in parts;
      SplitJoin(tail, c);
      var s := Join(parts, [c]);
      JoinCons(parts[0], tail, [c]);
      assert [parts[0]] + tail == parts;
      IndexOfPrefix(parts[0], Join(tail, [c]), c);
      assert s[..|parts[0]|] == parts[0];
      assert s[|parts[0]| + 1..] == Join(tail, [c]);
    }
  }

  lemma {:induction false} IndexOfAbsent(s: string, c: char)
    requires c !in s
    ensures IndexOf(s, c) == |s|
  {
    if |s| > 0 {
      assert forall x :: x in s[1..] ==> x in s;
      IndexOfAbsent(s[1..], c);
    }
  }

  lemma {:induction false} IndexOfPrefix(p: string, t: string, c: char)
    requires c !in p
    ensures IndexOf(p + [c] + t, c) == |p|
  {
    if |p| > 0 {
      assert (p + [c] + t)[1..] == p[1..] + [c] + t;
      assert forall x :: x in p[1..] ==> x in p;
      IndexOfPrefix(p[1..], t, c);
    }
  }

  /** `a` occurs in `b` in the same order, possibly with gaps. */
  predicate IsSubsequence<T(==)>(a: seq<T>, b: seq<T>)
    decreases |b|
  {
    if a == [] then true
    else if b == [] then false
    else if a[0] == b[0] then IsSubsequence(a[1..], b[1..])
    else IsSubsequence(a, b[1..])
  }

  /** A subsequence of the tail is a subsequence of the whole. */
  lemma {:induction false} SubsequenceDropHead<T>(a: seq<T>, s: seq<T>)
    requires s != [] && IsSubsequence(a, s[1..])
    ensures IsSubsequence(a, s)
    decreases |s|, 0
  {
    if a != [] && a[0] == s[0] {
      SubsequenceTail(a, s[1..]);
    }
  }

  /** Dropping the first element of a subsequence keeps it a subsequence. */
  lemma {:induction false} SubsequenceTail<T>(a: seq<T>, s: seq<T>)
    requires a != [] && IsSubsequence(a, s)
    ensures IsSubsequence(a[1..], s)
    decreases |s|, 1
  {
    if a[0] == s[0] {
      SubsequenceDropHead(a[1..], s);
    } else {
      SubsequenceTail(a, s[1..]);
      SubsequenceDropHead(a[1..], s);
    }
  }

  /** The same element put in front of both sides keeps the relation. */
  lemma {:induction false} SubsequenceCons<T>(x: T, a: seq<T>, s: seq<T>)
    requires IsSubsequence(a, s)
    ensures IsSubsequence([x] + a, [x] + s)
  {
    assert ([x] + a)[1..] == a;
    assert ([x] + s)[1..] == s;
  }

  /** `x` occurs in `s` as a contiguous block. */
  predicate IsSubstring(x: string, s: string) {
    exists i :: 0 <= i <= |s| - |x| && OccursAt(x, s, i)
  }

  predicate OccursAt(x: string, s: string, i: int) {
    0 <= i <= |s| - |x| && s[i..i + |x|] == x
  }

  lemma SubstringOfConcat(x: string, a: string, b: string)
    requires IsSubstring(x, b)
    ensures IsSubstring(x, a + b) && IsSubstring(x, b + a)
  {
    var i :| 0 <= i <= |b| - |x| && OccursAt(x, b, i);
    assert b[i..i + |x|] == x;
    assert (a + b)[|a| + i..|a| + i + |x|] == x;
    assert OccursAt(x, a + b, |a| + i);
    assert (b + a)[i..i + |x|] == x;
    assert OccursAt(x, b + a, i);
  }

  lemma SubstringSelf(x: string)
    ensures IsSubstring(x, x)
  {
    assert OccursAt(x, x, 0);
  }

  /** Every part of a sequence occurs in its join. */
  lemma {:induction false} PartInJoin(parts: seq<string>, sep: string, k: nat)
    requires k < |parts|
    ensures IsSubstring(parts[k], Join(parts, sep))
  {
    if |parts| == 1 {
      SubstringSelf(parts[0]);
    } else if k == 0 {
      SubstringSelf(parts[0]);
      SubstringOfConcat(parts[0], sep + Join(parts[1..], sep), parts[0]);
      assert Join(parts, sep) == parts[0] + (sep + Join(parts[1..], sep));
    } else {
      PartInJoin(parts[1..], sep, k - 1);
      SubstringOfConcat(parts[k], parts[0] + sep, Join(parts[1..], sep));
      assert Join(parts, sep) == (parts[0] + sep) + Join(parts[1..], sep);
    }
  }
}
