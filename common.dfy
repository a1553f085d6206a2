/** Values and arithmetic shared by the whole model: optional values for
    JavaScript's `undefined`, the truthiness tests the handlers apply to
    request fields, template-literal rendering, and the integer counterparts
    of `Math.floor`, `Math.ceil` and `Math.round` over a quotient. */
module Common {

  /** An optional value; `None` stands for JavaScript's `undefined`. */
  datatype Option<+T> = None | Some(value: T)

  /** What a handler answers: a JSON payload with its status code, an
      `ErrorHandler` error with its status code, or an exception that the
      error middleware turns into a response. */
  datatype Reply = Success(status: int, payload: string) | Failure(status: int, message: string) | Thrown(message: string)

  /** A text field of a request together with what `Number(...)` (or the
      database's cast to a number) makes of it: `None` when that gives
      `NaN`, that is, when the cast fails.  Numbers are integers here; a
      decimal text such as `19.99` has no counterpart. */
  datatype NumericText = NumericText(text: string, value: Option<int>)

  /** `!!s` for an optional string: present and non-empty. */
  predicate TruthyText(s: Option<string>)
  {
    s.Some? && s.value != ""
  }

  /** `!!n` for an optional number: present and not zero. */
  predicate TruthyNumber(n: Option<int>)
  {
    n.Some? && n.value != 0
  }

  /** `!!t` for an optional text field: the test looks at the text, not at
      the number it stands for. */
  predicate TruthyField(t: Option<NumericText>)
  {
    t.Some? && t.value.text != ""
  }

  /** `x || 0` for an optional number. */
  function OrZero(n: Option<int>): (r: int)
    ensures n.None? ==> r == 0
    ensures n.Some? ==> r == n.value
  {
    if n.Some? then n.value else 0
  }

  /** How a template literal renders an optional string: `undefined` when absent. */
  function Interp(s: Option<string>): (r: string)
    ensures s.Some? ==> r == s.value
    ensures s.None? ==> r == "undefined"
  {
    if s.Some? then s.value else "undefined"
  }

  /** Two optional texts render alike exactly when they are equal, but for
      one collision: a missing text renders like the text `undefined`. */
  lemma InterpCollision(a: Option<string>, b: Option<string>)
    ensures Interp(a) == Interp(b) <==>
      a == b || (a == None && b == Some("undefined")) || (a == Some("undefined") && b == None)
  {
  }

  /** `Math.floor(a / b)` for integers: the quotient rounded towards minus
      infinity (Dafny's own `/` rounds so that the remainder is not negative,
      which differs for a negative divisor). */
  function FloorDiv(a: int, b: int): (q: int)
    requires b != 0
    ensures b > 0 ==> q * b <= a < q * b + b
    ensures b < 0 ==> q * b >= a > q * b + b
  {
    if b > 0 then a / b else (-a) / (-b)
  }

  /** `Math.ceil(a / b)` for integers. */
  function CeilDiv(a: int, b: int): (q: int)
    requires b != 0
    ensures b > 0 ==> q * b - b < a <= q * b
    ensures b < 0 ==> q * b - b > a >= q * b
  {
    -FloorDiv(-a, b)
  }

  /** `Math.round(n / d)` for a positive divisor: the nearest integer, a tie
      going up. */
  function RoundDiv(n: int, d: int): (q: int)
    requires d > 0
    ensures 2 * q * d - d <= 2 * n < 2 * q * d + d
  {
    FloorDiv(2 * n + d, 2 * d)
  }

  /** Multiplying by a positive number keeps a strict order. */
  lemma MulCancel(a: int, b: int, n: int)
    requires n > 0
    ensures a * n < b * n <==> a < b
  {
    if a < b {
      assert b * n == a * n + (b - a) * n;
    } else {
      assert a * n == b * n + (a - b) * n;
    }
  }

  /** The sum of a sequence of integers. */
  function Sum(s: seq<int>): int
  {
    if s == [] then 0 else Sum(s[..|s| - 1]) + s[|s| - 1]
  }

  /** Putting a number in front adds it to the sum. */
  lemma {:induction false} SumCons(x: int, s: seq<int>)
    ensures Sum([x] + s) == x + Sum(s)
    decreases |s|
  {
    var t := [x] + s;
    if s == [] {
      assert t[..0] == [];
    } else {
      assert t[..|t| - 1] == [x] + s[..|s| - 1];
      SumCons(x, s[..|s| - 1]);
    }
  }

  /** Adding `c` at one position adds `c` to the sum. */
  lemma {:induction false} SumUpdate(s: seq<int>, i: nat, c: int)
    requires i < |s|
    ensures Sum(s[i := s[i] + c]) == Sum(s) + c
  {
    var t := s[i := s[i] + c];
    assert t[..|t| - 1] == if i == |s| - 1 then s[..|s| - 1] else s[..|s| - 1][i := s[i] + c];
    if i < |s| - 1 {
      SumUpdate(s[..|s| - 1], i, c);
    }
  }

  /** A sequence of zeros sums to zero. */
  lemma {:induction false} SumZeros(n: nat)
    ensures Sum(seq(n, _ => 0)) == 0
  {
    if n > 0 {
      assert seq(n, _ => 0)[..n - 1] == seq(n - 1, _ => 0);
      SumZeros(n - 1);
    }
  }

  /** `s.filter(p).length` */
  function CountWhere<T>(s: seq<T>, p: T -> bool): (r: nat)
    ensures r <= |s|
  {
    if s == [] then 0 else CountWhere(s[..|s| - 1], p) + (if p(s[|s| - 1]) then 1 else 0)
  }

  /** Two complementary filters split a sequence between them. */
  lemma {:induction false} CountComplement<T>(s: seq<T>, p: T -> bool, q: T -> bool)
    requires forall x :: q(x) <==> !p(x)
    ensures CountWhere(s, p) + CountWhere(s, q) == |s|
  {
    if s != [] {
      CountComplement(s[..|s| - 1], p, q);
    }
  }

  /** Three filters of which exactly one holds for every element split a
      sequence between them. */
  lemma {:induction false} CountPartition3<T>(s: seq<T>, p: T -> bool, q: T -> bool, r: T -> bool)
    requires forall x :: (if p(x) then 1 else 0) + (if q(x) then 1 else 0) + (if r(x) then 1 else 0) == 1
    ensures CountWhere(s, p) + CountWhere(s, q) + CountWhere(s, r) == |s|
  {
    if s != [] {
      CountPartition3(s[..|s| - 1], p, q, r);
    }
  }

  /** `String.prototype.toLowerCase` on ASCII letters; other characters are kept. */
  function ToLower(s: string): (r: string)
    ensures |r| == |s|
    ensures forall i :: 0 <= i < |s| ==> r[i] == (if 'A' <= s[i] <= 'Z' then (s[i] as int + 32) as char else s[i])
  {
    seq(|s|, i requires 0 <= i < |s| => if 'A' <= s[i] <= 'Z' then (s[i] as int + 32) as char else s[i])
  }

  /** No upper-case ASCII letter in `s`. */
  predicate IsLower(s: string)
  {
    forall i :: 0 <= i < |s| ==> !('A' <= s[i] <= 'Z')
  }

  /** Lowered text has no upper-case letter, and lowering text that has none
      changes nothing; in particular lower-casing twice is lower-casing once. */
  lemma ToLowerIdempotent(s: string)
    ensures IsLower(ToLower(s))
    ensures IsLower(s) ==> ToLower(s) == s
    ensures ToLower(ToLower(s)) == ToLower(s)
  {
  }

  /** The ASCII white space that `String.prototype.trim` removes. */
  predicate IsSpace(c: char)
  {
    c == ' ' || c == '\t' || c == '\n' || c == '\r'
  }

  /** Every character of `s` before `i`, and from `j` on, is white space. */
  predicate SpaceOutside(s: string, i: int, j: int)
    requires 0 <= i <= j <= |s|
  {
    (forall k :: 0 <= k < i ==> IsSpace(s[k])) && (forall k :: j <= k < |s| ==> IsSpace(s[k]))
  }

  /** Where the leading white space of `s` ends. */
  function TrimStart(s: string): (i: nat)
    ensures i <= |s|
    ensures forall k :: 0 <= k < i ==> IsSpace(s[k])
    ensures i < |s| ==> !IsSpace(s[i])
  {
    if s == [] || !IsSpace(s[0]) then 0
    else
      var n := TrimStart(s[1..]);
      assert forall k :: 0 < k < |s| ==> s[k] == s[1..][k - 1];
      n + 1
  }

  /** Where the trailing white space of `s` starts. */
  function TrimEnd(s: string): (j: nat)
    ensures j <= |s|
    ensures forall k :: j <= k < |s| ==> IsSpace(s[k])
    ensures 0 < j ==> !IsSpace(s[j - 1])
  {
    if s == [] || !IsSpace(s[|s| - 1]) then |s|
    else
      var n := TrimEnd(s[..|s| - 1]);
      assert forall k :: 0 <= k < |s| - 1 ==> s[k] == s[..|s| - 1][k];
      n
  }

  /** `String.prototype.trim` on ASCII white space: the slice of the input
      left once the white space at both ends is cut off, which is empty only
      when the input is all white space. */
  function Trim(s: string): (r: string)
    ensures |r| <= |s|
    ensures r != [] ==> !IsSpace(r[0]) && !IsSpace(r[|r| - 1])
    ensures exists i, j :: 0 <= i <= j <= |s| && r == s[i..j] && SpaceOutside(s, i, j)
    ensures (exists k :: 0 <= k < |s| && !IsSpace(s[k])) ==> r != []
  {
    var i := TrimStart(s);
    if i == |s| then
      assert s[|s|..|s|] == [] && SpaceOutside(s, |s|, |s|);
      []
    else
      var j := TrimEnd(s);
      assert i < j;
      assert SpaceOutside(s, i, j);
      s[i..j]
  }

  /** Text that neither starts nor ends with white space is its own trim, so
      trimming twice is trimming once. */
  lemma TrimIdempotent(s: string)
    ensures s == [] || (!IsSpace(s[0]) && !IsSpace(s[|s| - 1])) ==> Trim(s) == s
    ensures Trim(Trim(s)) == Trim(s)
  {
    var t := Trim(s);
    if t != [] {
      assert !IsSpace(t[0]) && !IsSpace(t[|t| - 1]);
    }
  }

  /** Lower-casing and then trimming, as the schema does for a new product's
      category, gives text that both operations leave unchanged. */
  lemma LowerTrimNormal(s: string)
    ensures var c := Trim(ToLower(s)); ToLower(c) == c && Trim(c) == c
  {
    var l := ToLower(s);
    var c := Trim(l);
    ToLowerIdempotent(s);
    var i, j :| 0 <= i <= j <= |l| && c == l[i..j] && SpaceOutside(l, i, j);
    assert IsLower(c) by {
      forall k | 0 <= k < |c| ensures c[k] == l[i + k] { }
    }
    ToLowerIdempotent(c);
    TrimIdempotent(l);
  }
}
