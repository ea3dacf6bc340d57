/** The loosely-typed values the ingestion scripts read with json.load, and the
    handful of Python built-ins they apply to them: dict.get, `in`, iteration,
    truthiness, str(), str.join, str.lower, str.replace and hashing. */
module PyJson {

  /** A JSON value as json.load returns it. An object keeps its keys in
      document order, as a Python dict does. Floating-point numbers are not
      modelled. */
  datatype Json =
    | JNull
    | JBool(b: bool)
    | JNum(n: int)
    | JStr(s: string)
    | JList(items: seq<Json>)
    | JObj(fields: seq<Field>)

  datatype Field = Field(key: string, val: Json)

  /** The Python exceptions the modelled code can raise on malformed input. */
  datatype PyError =
    | NotIterable       // TypeError: the value has no len() / is not iterable
    | NotSubscriptable  // TypeError: string or list indices must be integers
    | NoAttribute       // AttributeError: no .get / .lower on this value
    | Unhashable        // TypeError: unhashable type 'list' / 'dict'
    | JoinNonString     // TypeError: sequence item: expected str instance
    | Unorderable       // TypeError: '<' not supported between these instances

  datatype Option<+T> = None | Some(value: T)

  datatype Result<+T> = Ok(value: T) | Err(error: PyError) {
    predicate IsFailure() { Err? }
    function PropagateFailure<U>(): Result<U> requires Err? { Err(error) }
    function Extract(): T requires Ok? { value }
  }

  // ---------------------------------------------------------------- dicts

  /** `key in d` for a dict `d`. */
  predicate Has(fields: seq<Field>, key: string) {
    exists i :: 0 <= i < |fields| && fields[i].key == key
  }

  /** The value stored under `key`, if any. */
  function Lookup(fields: seq<Field>, key: string): (r: Option<Json>)
    ensures r.Some? <==> Has(fields, key)
    ensures r.Some? ==> exists i :: 0 <= i < |fields| && fields[i] == Field(key, r.value)
  {
    if fields == [] then None
    else if fields[0].key == key then Some(fields[0].val)
    else
      var r := Lookup(fields[1..], key);
      assert r.Some? ==> exists i :: 0 <= i < |fields[1..]| && fields[1..][i] == Field(key, r.value);
      assert Has(fields, key) ==> Has(fields[1..], key) by {
        if Has(fields, key) {
          var i :| 0 <= i < |fields| && fields[i].key == key;
          assert i > 0 && fields[1..][i - 1].key == key;
        }
      }
      r
  }

  /** `d[key]` where the key is known to be present. */
  function Value(fields: seq<Field>, key: string): Json
    requires Has(fields, key)
  {
    Lookup(fields, key).value
  }

  /** `d.get(key, default)`. */
  function Get(fields: seq<Field>, key: string, default: Json): (r: Json)
    ensures Has(fields, key) ==> r == Value(fields, key)
    ensures !Has(fields, key) ==> r == default
  {
    match Lookup(fields, key)
    case Some(v) => v
    case None => default
  }

  /** `v.get(key, default)` on a value that is expected to be a dict. */
  function DictGet(v: Json, key: string, default: Json): (r: Result<Json>)
    ensures r.Ok? <==> v.JObj?
    ensures v.JObj? ==> r.value == Get(v.fields, key, default)
  {
    match v
    case JObj(fields) => Ok(Get(fields, key, default))
    case _ => Err(NoAttribute)
  }

  // ------------------------------------------------------ iteration, `in`

  /** The values `for x in v` visits: list elements, the one-character
      strings of a string, the keys of a dict. Other values are not iterable. */
  function Elements(v: Json): (r: Result<seq<Json>>)
    ensures r.Ok? <==> v.JList? || v.JStr? || v.JObj?
    ensures r.Err? ==> r.error == NotIterable
    ensures v.JList? ==> r == Ok(v.items)
    ensures v.JStr? ==>
              r.Ok? && |r.value| == |v.s| &&
              forall i :: 0 <= i < |v.s| ==> r.value[i] == JStr([v.s[i]])
    ensures v.JObj? ==>
              r.Ok? && |r.value| == |v.fields| &&
              forall i :: 0 <= i < |v.fields| ==> r.value[i] == JStr(v.fields[i].key)
  {
    match v
    case JList(items) => Ok(items)
    case JStr(s) => Ok(seq(|s|, i requires 0 <= i < |s| => JStr([s[i]])))
    case JObj(fields) => Ok(seq(|fields|, i requires 0 <= i < |fields| => JStr(fields[i].key)))
    case _ => Err(NotIterable)
  }

  /** `pat` occurs in `s` starting at index `i`. */
  predicate OccursAt(pat: string, s: string, i: nat) {
    i + |pat| <= |s| && s[i..i + |pat|] == pat
  }

  lemma OccursBetween(pre: string, mid: string, post: string)
    ensures OccursAt(mid, pre + mid + post, |pre|)
  {
    assert (pre + mid + post)[|pre|..|pre| + |mid|] == mid;
  }

  lemma OccursExtended(pat: string, s: string, i: nat, t: string)
    requires OccursAt(pat, s, i)
    ensures OccursAt(pat, s + t, i)
  {
    assert (s + t)[i..i + |pat|] == s[i..i + |pat|];
  }

  lemma OccursWithin(pat: string, s: string, i: nat, t: string, o: nat)
    requires OccursAt(pat, s, i) && OccursAt(s, t, o)
    ensures OccursAt(pat, t, o + i)
  {
    forall k | 0 <= k < |pat|
      ensures t[o + i..o + i + |pat|][k] == pat[k]
    {
      assert t[o..o + |s|][i + k] == s[i + k] == s[i..i + |pat|][k];
    }
  }

  /** Two occurrences that touch form one occurrence of the joined text. */
  lemma OccursAdjacent(a: string, b: string, t: string, i: nat)
    requires OccursAt(a, t, i) && OccursAt(b, t, i + |a|)
    ensures OccursAt(a + b, t, i)
  {
    assert t[i..i + |a| + |b|] == t[i..i + |a|] + t[i + |a|..i + |a| + |b|];
  }

  /** The concatenation of `parts`, as an f-string assembles its pieces. */
  function Concat(parts: seq<string>): string
    decreases |parts|
  {
    if parts == [] then [] else Concat(parts[..|parts| - 1]) + parts[|parts| - 1]
  }

  /** Where part `k` starts: the total length of the parts before it. */
  function Offset(parts: seq<string>, k: nat): nat
    requires k <= |parts|
  {
    if k == 0 then 0 else Offset(parts, k - 1) + |parts[k - 1]|
  }

  /** Every part occurs in the concatenation at its offset. */
  lemma {:induction false} PartAt(parts: seq<string>, k: nat)
    requires k < |parts|
    ensures OccursAt(parts[k], Concat(parts), Offset(parts, k))
    decreases |parts|
  {
    var n := |parts| - 1;
    var init := parts[..n];
    ConcatLength(init);
    assert forall i :: 0 <= i < n ==> init[i] == parts[i];
    OffsetPrefix(parts, n, n);
    if k == n {
      OccursBetween(Concat(init), parts[n], []);
      assert Concat(init) + parts[n] + [] == Concat(parts);
    } else {
      PartAt(init, k);
      OffsetPrefix(parts, n, k);
      OccursExtended(parts[k], Concat(init), Offset(init, k), parts[n]);
    }
  }

  /** Two neighbouring parts occur together at the offset of the first. */
  lemma AdjacentParts(parts: seq<string>, k: nat)
    requires k + 1 < |parts|
    ensures OccursAt(parts[k] + parts[k + 1], Concat(parts), Offset(parts, k))
  {
    PartAt(parts, k);
    PartAt(parts, k + 1);
    OccursAdjacent(parts[k], parts[k + 1], Concat(parts), Offset(parts, k));
  }

  lemma {:induction false} ConcatLength(parts: seq<string>)
    ensures |Concat(parts)| == Offset(parts, |parts|)
    decreases |parts|
  {
    if parts != [] {
      var n := |parts| - 1;
      ConcatLength(parts[..n]);
      OffsetPrefix(parts, n, n);
    }
  }

  /** The layout of an assembled string: it is as long as its parts
      together, and each part starts where the parts before it end. */
  lemma Layout(parts: seq<string>)
    ensures |Concat(parts)| == Offset(parts, |parts|)
    ensures forall k :: 0 <= k < |parts| ==> OccursAt(parts[k], Concat(parts), Offset(parts, k))
  {
    ConcatLength(parts);
    forall k | 0 <= k < |parts| ensures OccursAt(parts[k], Concat(parts), Offset(parts, k)) {
      PartAt(parts, k);
    }
  }

  /** The offsets of the parts after the first, counted from the first. */
  lemma {:induction false} OffsetTail(parts: seq<string>, k: nat)
    requires 1 <= k <= |parts|
    ensures Offset(parts, k) == |parts[0]| + Offset(parts[1..], k - 1)
    decreases k
  {
    if k > 1 {
      OffsetTail(parts, k - 1);
      assert parts[1..][k - 2] == parts[k - 1];
    }
  }

  /** Offsets only depend on the parts before them. */
  lemma {:induction false} OffsetPrefix(parts: seq<string>, n: nat, k: nat)
    requires k <= n <= |parts|
    ensures Offset(parts[..n], k) == Offset(parts, k)
    decreases k
  {
    if k > 0 {
      OffsetPrefix(parts, n, k - 1);
      assert parts[..n][k - 1] == parts[k - 1];
    }
  }

  /** `pat in s` for strings. */
  predicate IsSubstring(pat: string, s: string) {
    exists i: nat | i <= |s| :: OccursAt(pat, s, i)
  }

  /** `key in v` for a string `key`: key membership in a dict, substring test
      in a string, element equality in a list; a TypeError otherwise. */
  function Contains(v: Json, key: string): (r: Result<bool>)
    ensures r.Ok? <==> v.JObj? || v.JStr? || v.JList?
    ensures v.JObj? ==> r == Ok(Has(v.fields, key))
    ensures v.JStr? ==> r == Ok(IsSubstring(key, v.s))
    ensures v.JList? ==> r == Ok(JStr(key) in v.items)
    ensures r.Err? ==> r.error == NotIterable
  {
    match v
    case JObj(fields) => Ok(Has(fields, key))
    case JStr(s) => Ok(IsSubstring(key, s))
    case JList(items) => Ok(JStr(key) in items)
    case _ => Err(NotIterable)
  }

  /** Python truthiness: empty containers, "", 0, False and None are false. */
  predicate Truthy(v: Json)
    ensures Truthy(v) <==> v !in {JNull, JBool(false), JNum(0), JStr(""), JList([]), JObj([])}
  {
    match v
    case JNull => false
    case JBool(b) => b
    case JNum(n) => n != 0
    case JStr(s) => s != ""
    case JList(items) => items != []
    case JObj(fields) => fields != []
  }

  // --------------------------------------------------------------- hashing

  /** Values a Python set or dict can hold. */
  predicate Hashable(v: Json) {
    !v.JList? && !v.JObj?
  }

  /** The representative under Python's `==` for hashable values: True == 1
      and False == 0; every other hashable value is equal only to itself. */
  function HashKey(v: Json): (k: Json)
    ensures !k.JBool?
    ensures Hashable(v) ==> Hashable(k)
    ensures v.JBool? ==> k == JNum(if v.b then 1 else 0)
    ensures !v.JBool? ==> k == v
  {
    match v
    case JBool(b) => JNum(if b then 1 else 0)
    case _ => v
  }

  // ---------------------------------------------------------------- str()

  function Digit(d: nat): char
    requires d < 10
  {
    "0123456789"[d]
  }

  /** The decimal digits of `n`, most significant first. */
  function NatToDecimal(n: nat): (r: string)
    ensures |r| >= 1
    ensures forall i :: 0 <= i < |r| ==> '0' <= r[i] <= '9'
    ensures n == 0 ==> r == "0"
    ensures n > 0 ==> r[0] != '0'
    decreases n
  {
    if n < 10 then [Digit(n)] else NatToDecimal(n / 10) + [Digit(n % 10)]
  }

  /** A string made only of decimal digits. */
  predicate IsDecimal(s: string) {
    forall i :: 0 <= i < |s| ==> '0' <= s[i] <= '9'
  }

  /** The value of a string of decimal digits (the reading half of the round trip). */
  function DecimalValue(s: string): nat
    requires IsDecimal(s)
  {
    if s == [] then 0 else 10 * DecimalValue(s[..|s| - 1]) + (s[|s| - 1] as int - '0' as int)
  }

  lemma DigitValue(d: nat)
    requires d < 10
    ensures Digit(d) as int - '0' as int == d
  {
  }

  lemma {:induction false} DecimalRoundTrip(n: nat)
    ensures DecimalValue(NatToDecimal(n)) == n
    decreases n
  {
    if n >= 10 {
      var r := NatToDecimal(n);
      assert r[..|r| - 1] == NatToDecimal(n / 10);
      DigitValue(n % 10);
      DecimalRoundTrip(n / 10);
    }
  }

  /** A digit string without a leading zero (or "0" itself) starts with a
      non-zero digit, so its value is positive. */
  lemma {:induction false} LeadingDigitPositive(s: string)
    requires IsDecimal(s) && s != [] && s[0] != '0'
    ensures DecimalValue(s) > 0
    decreases |s|
  {
    if |s| > 1 {
      LeadingDigitPositive(s[..|s| - 1]);
    }
  }

  /** The canonical form is unique: a digit string with no leading zero is
      exactly what NatToDecimal prints for its value. */
  lemma {:induction false} CanonicalDecimal(s: string)
    requires IsDecimal(s) && s != []
    requires s[0] != '0' || s == "0"
    ensures s == NatToDecimal(DecimalValue(s))
    decreases |s|
  {
    var n := |s| - 1;
    var d := s[n] as int - '0' as int;
    DigitValue(d);
    if n == 0 {
      assert s == [Digit(d)];
    } else {
      var p := s[..n];
      var v := DecimalValue(p);
      CanonicalDecimal(p);
      LeadingDigitPositive(p);
      assert DecimalValue(s) == 10 * v + d;
      LastDigit(v, d);
      assert NatToDecimal(10 * v + d) == NatToDecimal(v) + [Digit(d)];
      assert s == p + [Digit(d)];
    }
  }

  /** Appending digit `d` to a number `v`: the quotient and remainder by ten. */
  lemma LastDigit(v: nat, d: nat)
    requires d < 10
    ensures (10 * v + d) / 10 == v && (10 * v + d) % 10 == d
  {
  }

  /** `str(n)` for an int: the canonical decimal form, with no leading zero,
      and a '-' in front of a negative number. */
  function IntToDecimal(n: int): (r: string)
    ensures n >= 0 ==> IsDecimal(r) && DecimalValue(r) == n
    ensures n < 0 ==> |r| >= 2 && r[0] == '-' && IsDecimal(r[1..]) && DecimalValue(r[1..]) == -n
    ensures n == 0 ==> r == "0"
    ensures n > 0 ==> |r| >= 1 && r[0] != '0'
    ensures n < 0 ==> r[1] != '0'
  {
    var digits := NatToDecimal(if n < 0 then -n else n);
    DecimalRoundTrip(if n < 0 then -n else n);
    if n < 0 then
      assert ("-" + digits)[1..] == digits;
      "-" + digits
    else
      digits
  }

  /** `str(v)`, which is also what an f-string inserts for `{v}`. */
  function PyStr(v: Json): (r: string)
    ensures v.JNull? ==> r == "None"
    ensures v.JBool? ==> r == if v.b then "True" else "False"
    ensures v.JNum? ==> r == IntToDecimal(v.n)
    ensures v.JStr? ==> r == v.s
    ensures v.JList? ==> |r| >= 2 && r[0] == '[' && r[|r| - 1] == ']'
    ensures v.JList? ==>
              r[1..|r| - 1] == Join(", ", seq(|v.items|, i requires 0 <= i < |v.items| => PyRepr(v.items[i])))
    ensures v.JObj? ==> |r| >= 2 && r[0] == '{' && r[|r| - 1] == '}'
    ensures v.JObj? ==>
              r[1..|r| - 1] == Join(", ", seq(|v.fields|, i requires 0 <= i < |v.fields| =>
                                                "'" + v.fields[i].key + "': " + PyRepr(v.fields[i].val)))
    decreases v, 0
  {
    match v
    case JNull => "None"
    case JBool(b) => if b then "True" else "False"
    case JNum(n) => IntToDecimal(n)
    case JStr(s) => s
    case JList(items) =>
      "[" + Join(", ", seq(|items|, i requires 0 <= i < |items| => PyRepr(items[i]))) + "]"
    case JObj(fields) =>
      "{" + Join(", ", seq(|fields|, i requires 0 <= i < |fields| =>
                         "'" + fields[i].key + "': " + PyRepr(fields[i].val))) + "}"
  }

  /** `repr(v)` as used inside a container's str(): strings are quoted. */
  function PyRepr(v: Json): (r: string)
    ensures v.JStr? ==> |r| == |v.s| + 2 && r[0] == '\'' && r[|r| - 1] == '\'' && r[1..|r| - 1] == v.s
    ensures !v.JStr? ==> r == PyStr(v)
    decreases v, 1
  {
    if v.JStr? then "'" + v.s + "'" else PyStr(v)
  }

  // ---------------------------------------------------------- str methods

  /** `sep.join(parts)`. */
  function Join(sep: string, parts: seq<string>): (r: string)
    ensures parts == [] ==> r == ""
    ensures parts != [] ==> |r| == Offset(parts, |parts|) + (|parts| - 1) * |sep|
    ensures parts != [] ==> OccursAt(parts[0], r, 0)
  {
    if |parts| == 0 then ""
    else if |parts| == 1 then parts[0]
    else
      OffsetTail(parts, |parts|);
      parts[0] + sep + Join(sep, parts[1..])
  }

  /** Where part `k` of `sep.join(parts)` starts: after the parts before it
      and the `k` separators between them. */
  function JoinOffset(sep: string, parts: seq<string>, k: nat): nat
    requires k <= |parts|
  {
    Offset(parts, k) + k * |sep|
  }

  /** Part `k` of a join sits at its join offset. */
  lemma {:induction false} JoinPartAt(sep: string, parts: seq<string>, k: nat)
    requires k < |parts|
    ensures OccursAt(parts[k], Join(sep, parts), JoinOffset(sep, parts, k))
    decreases k
  {
    if k > 0 {
      var rest := Join(sep, parts[1..]);
      JoinPartAt(sep, parts[1..], k - 1);
      assert parts[1..][k - 1] == parts[k];
      OccursBetween(parts[0] + sep, rest, []);
      assert (parts[0] + sep) + rest + [] == Join(sep, parts);
      OccursWithin(parts[k], rest, JoinOffset(sep, parts[1..], k - 1), Join(sep, parts), |parts[0] + sep|);
      OffsetTail(parts, k);
      assert k * |sep| == (k - 1) * |sep| + |sep|;
    }
  }

  /** Separator `k` of a join sits right after part `k`. */
  lemma {:induction false} JoinSepAt(sep: string, parts: seq<string>, k: nat)
    requires k + 1 < |parts|
    ensures OccursAt(sep, Join(sep, parts), JoinOffset(sep, parts, k) + |parts[k]|)
    decreases k
  {
    var rest := Join(sep, parts[1..]);
    assert Join(sep, parts) == parts[0] + sep + rest;
    if k == 0 {
      OccursBetween(parts[0], sep, rest);
    } else {
      JoinSepAt(sep, parts[1..], k - 1);
      assert parts[1..][k - 1] == parts[k];
      OccursBetween(parts[0] + sep, rest, []);
      assert (parts[0] + sep) + rest + [] == Join(sep, parts);
      OccursWithin(sep, rest, JoinOffset(sep, parts[1..], k - 1) + |parts[k]|, Join(sep, parts), |parts[0] + sep|);
      OffsetTail(parts, k);
      assert k * |sep| == (k - 1) * |sep| + |sep|;
    }
  }

  /** The whole layout of a join: each part at its join offset, a separator
      right after every part but the last, and the result ends with the last
      part. */
  lemma JoinLayout(sep: string, parts: seq<string>)
    requires parts != []
    ensures |Join(sep, parts)| == JoinOffset(sep, parts, |parts| - 1) + |parts[|parts| - 1]|
    ensures forall k :: 0 <= k < |parts| ==> OccursAt(parts[k], Join(sep, parts), JoinOffset(sep, parts, k))
    ensures forall k :: 0 <= k < |parts| - 1 ==> OccursAt(sep, Join(sep, parts), JoinOffset(sep, parts, k) + |parts[k]|)
  {
    var n := |parts| - 1;
    assert Offset(parts, n + 1) == Offset(parts, n) + |parts[n]|;
    forall k | 0 <= k < |parts|
      ensures OccursAt(parts[k], Join(sep, parts), JoinOffset(sep, parts, k))
    {
      JoinPartAt(sep, parts, k);
    }
    forall k | 0 <= k < |parts| - 1
      ensures OccursAt(sep, Join(sep, parts), JoinOffset(sep, parts, k) + |parts[k]|)
    {
      JoinSepAt(sep, parts, k);
    }
  }

  /** `sep.join(v)` on an arbitrary value: `v` must be iterable and every
      element it yields must be a string. */
  function JoinValue(sep: string, v: Json): (r: Result<string>)
    ensures v.JList? && (forall i :: 0 <= i < |v.items| ==> v.items[i].JStr?) ==>
              r == Ok(Join(sep, seq(|v.items|, i requires 0 <= i < |v.items| => v.items[i].s)))
    ensures v.JList? && (exists i :: 0 <= i < |v.items| && !v.items[i].JStr?) ==> r == Err(JoinNonString)
    ensures !v.JList? && !v.JStr? && !v.JObj? ==> r == Err(NotIterable)
    ensures v.JStr? || v.JObj? ==> r.Ok?
    ensures v.JStr? ==> r == Ok(Join(sep, Chars(v.s)))
    ensures v.JObj? ==> r == Ok(Join(sep, KeyNames(v.fields)))
  {
    var elems :- Elements(v);
    if forall i :: 0 <= i < |elems| ==> elems[i].JStr? then
      var parts := seq(|elems|, i requires 0 <= i < |elems| => elems[i].s);
      assert v.JStr? ==> parts == Chars(v.s);
      assert v.JObj? ==> parts == KeyNames(v.fields);
      Ok(Join(sep, parts))
    else
      Err(JoinNonString)
  }

  /** The one-character strings iterating over a string yields. */
  function Chars(s: string): seq<string> {
    seq(|s|, i requires 0 <= i < |s| => [s[i]])
  }

  /** The keys iterating over a dict yields. */
  function KeyNames(fields: seq<Field>): seq<string> {
    seq(|fields|, i requires 0 <= i < |fields| => fields[i].key)
  }

  /** `s.split(c)` for a one-character separator: the partner of Join. */
  function Split(s: string, c: char): (r: seq<string>)
    ensures |r| >= 1
    decreases |s|
  {
    if s == [] then [""]
    else
      var rest := Split(s[1..], c);
      if s[0] == c then [""] + rest else [[s[0]] + rest[0]] + rest[1..]
  }

  lemma {:induction false} SplitNoSeparator(s: string, c: char)
    requires c !in s
    ensures Split(s, c) == [s]
    decreases |s|
  {
    if s != [] {
      SplitNoSeparator(s[1..], c);
      assert [s[0]] + s[1..] == s;
    }
  }

  lemma {:induction false} SplitAtSeparator(a: string, c: char, b: string)
    requires c !in a
    ensures Split(a + [c] + b, c) == [a] + Split(b, c)
    decreases |a|
  {
    if a == [] {
      assert a + [c] + b == [c] + b;
      assert ([c] + b)[1..] == b;
    } else {
      assert (a + [c] + b)[1..] == a[1..] + [c] + b;
      SplitAtSeparator(a[1..], c, b);
      assert [a[0]] + a[1..] == a;
    }
  }

  /** Joining with a one-character separator that no part contains, and then
      splitting on it, gives the parts back. */
  lemma {:induction false} SplitJoin(parts: seq<string>, c: char)
    requires |parts| >= 1
    requires forall i :: 0 <= i < |parts| ==> c !in parts[i]
    ensures Split(Join([c], parts), c) == parts
    decreases |parts|
  {
    if |parts| == 1 {
      SplitNoSeparator(parts[0], c);
    } else {
      SplitJoin(parts[1..], c);
      SplitAtSeparator(parts[0], c, Join([c], parts[1..]));
      assert [parts[0]] + parts[1..] == parts;
    }
  }

  /** Every part of a join appears in the joined string. */
  lemma {:induction false} JoinContainsPart(sep: string, parts: seq<string>, k: nat)
    requires k < |parts|
    ensures IsSubstring(parts[k], Join(sep, parts))
    decreases |parts|
  {
    var j := Join(sep, parts);
    if |parts| == 1 || k == 0 {
      assert OccursAt(parts[k], j, 0);
    } else {
      JoinContainsPart(sep, parts[1..], k - 1);
      assert parts[1..][k - 1] == parts[k];
      var rest := Join(sep, parts[1..]);
      var i: nat :| i <= |rest| && OccursAt(parts[k], rest, i);
      assert i + |parts[k]| <= |rest| && rest[i..i + |parts[k]|] == parts[k];
      var off := |parts[0]| + |sep|;
      assert j == parts[0] + sep + rest;
      assert j[off + i..off + i + |parts[k]|] == rest[i..i + |parts[k]|];
      assert OccursAt(parts[k], j, off + i);
    }
  }

  lemma JoinContainsParts(sep: string, parts: seq<string>)
    ensures forall k :: 0 <= k < |parts| ==> IsSubstring(parts[k], Join(sep, parts))
  {
    forall k | 0 <= k < |parts| ensures IsSubstring(parts[k], Join(sep, parts)) {
      JoinContainsPart(sep, parts, k);
    }
  }

  /** Every part of a join that occurs inside a text occurs in that text. */
  lemma JoinedWithin(sep: string, parts: seq<string>, t: string, o: nat)
    requires OccursAt(Join(sep, parts), t, o)
    ensures forall k :: 0 <= k < |parts| ==> IsSubstring(parts[k], t)
  {
    forall k | 0 <= k < |parts| ensures IsSubstring(parts[k], t) {
      JoinContainsPart(sep, parts, k);
      var at: nat :| at <= |Join(sep, parts)| && OccursAt(parts[k], Join(sep, parts), at);
      OccursWithin(parts[k], Join(sep, parts), at, t, o);
    }
  }

  /** `s.lower()`, character by character. */
  function Lower(s: string, lower: char -> char): (r: string)
    ensures |r| == |s| && forall i :: 0 <= i < |s| ==> r[i] == lower(s[i])
  {
    seq(|s|, i requires 0 <= i < |s| => lower(s[i]))
  }

  /** `s.replace(from, to)` for one-character `from` and `to`. */
  function Replace(s: string, from: char, to: char): (r: string)
    ensures |r| == |s|
    ensures forall i :: 0 <= i < |s| ==> r[i] == if s[i] == from then to else s[i]
  {
    seq(|s|, i requires 0 <= i < |s| => if s[i] == from then to else s[i])
  }
}
