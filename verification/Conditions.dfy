/** Rule conditions: their canonical order and hash (internal/domain/hash.go) and the test of a
 *  case payload against them (internal/app/rules.go).
 */
module Conditions {
  import opened Sorting

  /** A Go `any` as this code sees it: whether it is a string, its fmt.Sprint text, its JSON encoding. */
  datatype Value = Value(isText: bool, printed: string, json: string)

  function Text(s: string): Value {
    Value(true, s, "\"" + s + "\"")
  }

  datatype Condition = Condition(field: string, operator: string, value: Value)

  type Payload = map<string, Value>

  // ----- Matching

  predicate Holds(payload: Payload, c: Condition) {
    if c.operator == "=" then
      c.field in payload && payload[c.field].printed == c.value.printed
    else if c.operator == "!=" then
      c.field in payload ==> payload[c.field].printed != c.value.printed
    else
      false
  }

  predicate Matches(payload: Payload, conditions: seq<Condition>) {
    forall c <- conditions :: Holds(payload, c)
  }

  /** The payload meets the condition as an operator would read it: the field is there and prints the value, or
   *  it does not print the value.
   */
  ghost predicate Meets(payload: Payload, c: Condition) {
    || (c.operator == "=" && exists v :: (c.field, v) in payload.Items && v.printed == c.value.printed)
    || (c.operator == "!=" && forall v :: (c.field, v) in payload.Items ==> v.printed != c.value.printed)
  }

  ghost predicate MeetsAll(payload: Payload, conditions: seq<Condition>) {
    forall c :: c in conditions ==> Meets(payload, c)
  }

  /** A list of conditions matches exactly when each is met; the order and repetitions do not matter. */
  lemma MatchesMeets(payload: Payload, conditions: seq<Condition>)
    ensures Matches(payload, conditions) <==> MeetsAll(payload, conditions)
  {
    forall c | c in conditions ensures Holds(payload, c) <==> Meets(payload, c) {
      if c.field in payload {
        assert (c.field, payload[c.field]) in payload.Items;
      }
    }
  }

  /** What the two operators say of a field, present or not; no other operator ever matches. Of the payload only
   *  the printed text counts.
   */
  lemma OperatorsMean(payload: Payload, field: string, operator: string, actual: Value, value: Value)
    ensures Matches(payload[field := actual], [Condition(field, "=", value)]) <==> actual.printed == value.printed
    ensures Matches(payload[field := actual], [Condition(field, "!=", value)]) <==> actual.printed != value.printed
    ensures field !in payload ==> !Matches(payload, [Condition(field, "=", value)])
    ensures field !in payload ==> Matches(payload, [Condition(field, "!=", value)])
    ensures operator != "=" && operator != "!=" ==> !Matches(payload, [Condition(field, operator, value)])
  {
    var equal, differs := Condition(field, "=", value), Condition(field, "!=", value);
    assert equal in [equal] && differs in [differs];
    assert Condition(field, operator, value) in [Condition(field, operator, value)];
  }

  method ConditionsMatch(payload: Payload, conditions: seq<Condition>) returns (r: bool)
    ensures r <==> Matches(payload, conditions)
    ensures r <==> MeetsAll(payload, conditions)
  {
    MatchesMeets(payload, conditions);
    var n := 0;
    while n < |conditions|
      invariant 0 <= n <= |conditions|
      invariant forall k :: 0 <= k < n ==> Holds(payload, conditions[k])
    {
      var c := conditions[n];
      assert c in conditions;
      var ok := c.field in payload;
      if c.operator == "=" {
        if !ok || payload[c.field].printed != c.value.printed {
          return false;
        }
      } else if c.operator == "!=" {
        if ok && payload[c.field].printed == c.value.printed {
          return false;
        }
      } else {
        return false;
      }
      n := n + 1;
    }
    return true;
  }

  // ----- The order of strings

  /** Go's `<` on strings. */
  predicate StringLess(a: string, b: string) {
    b != "" && (a == "" || a[0] < b[0] || (a[0] == b[0] && StringLess(a[1..], b[1..])))
  }

  lemma {:induction false} StringLessTotal(a: string, b: string)
    ensures StringLess(a, b) ==> !StringLess(b, a)
    ensures !StringLess(a, b) && !StringLess(b, a) ==> a == b
  {
    if a != "" && b != "" {
      StringLessTotal(a[1..], b[1..]);
      assert a == [a[0]] + a[1..] && b == [b[0]] + b[1..];
    }
  }

  /** One string comes before another when, after what they have in common, it ends or has the smaller character. */
  lemma {:induction false} StringLessMeans(a: string, b: string)
    ensures StringLess(a, b) <==>
      exists k: nat :: k <= |a| && k < |b| && a[..k] == b[..k] && (k == |a| || a[k] < b[k])
  {
    assert forall k :: 0 < k <= |a| && k <= |b| && a[..k] == b[..k] ==> a[0] == b[0] by {
      forall k | 0 < k <= |a| && k <= |b| && a[..k] == b[..k] ensures a[0] == b[0] {
        assert a[..k][0] == b[..k][0];
      }
    }
    if a != "" && b != "" && a[0] == b[0] {
      StringLessMeans(a[1..], b[1..]);
      if k: nat :| k <= |a| && k < |b| && a[..k] == b[..k] && (k == |a| || a[k] < b[k]) {
        assert a[1..][..k - 1] == a[..k][1..] && b[1..][..k - 1] == b[..k][1..];
      }
      if k: nat :| k < |a| && k < |b[1..]| && a[1..][..k] == b[1..][..k] && (k == |a[1..]| || a[1..][k] < b[1..][k]) {
        assert a[..k + 1] == [a[0]] + a[1..][..k] && b[..k + 1] == [b[0]] + b[1..][..k];
        assert k + 1 == |a| || a[k + 1] < b[k + 1];
      }
    } else {
      assert a[..0] == b[..0];
    }
  }

  lemma {:induction false} StringLessTransitive(a: string, b: string, c: string)
    requires StringLess(a, b) && StringLess(b, c)
    ensures StringLess(a, c)
    decreases |a|
  {
    if a != "" && a[0] == b[0] && b[0] == c[0] {
      StringLessTransitive(a[1..], b[1..], c[1..]);
    }
  }

  // ----- The canonical order

  /** What the hash sees of a condition. */
  datatype Encoded = Encoded(field: string, operator: string, json: string)

  function Encode(c: Condition): Encoded {
    Encoded(c.field, c.operator, c.value.json)
  }

  predicate EncodedLess(a: Encoded, b: Encoded) {
    if a.field != b.field then StringLess(a.field, b.field)
    else if a.operator != b.operator then StringLess(a.operator, b.operator)
    else StringLess(a.json, b.json)
  }

  predicate ConditionLess(a: Condition, b: Condition) {
    EncodedLess(Encode(a), Encode(b))
  }

  lemma EncodedLessTotal(a: Encoded, b: Encoded)
    ensures EncodedLess(a, b) ==> !EncodedLess(b, a)
    ensures !EncodedLess(a, b) && !EncodedLess(b, a) ==> a == b
  {
    StringLessTotal(a.field, b.field);
    StringLessTotal(a.operator, b.operator);
    StringLessTotal(a.json, b.json);
  }

  lemma EncodedLessWeak(a: Encoded, b: Encoded, c: Encoded)
    requires EncodedLess(a, c)
    ensures EncodedLess(a, b) || EncodedLess(b, c)
  {
    if !EncodedLess(a, b) && !EncodedLess(b, c) {
      EncodedLessTotal(a, b);
      EncodedLessTotal(b, c);
      if a != b && b != c {
        EncodedLessTransitive(c, b, a);
        EncodedLessTotal(a, c);
      }
    }
  }

  lemma EncodedLessTransitive(a: Encoded, b: Encoded, c: Encoded)
    requires EncodedLess(a, b) && EncodedLess(b, c)
    ensures EncodedLess(a, c)
  {
    if a.field != b.field && b.field != c.field {
      StringLessTransitive(a.field, b.field, c.field);
      StringLessTotal(a.field, b.field);
    } else if a.field == b.field == c.field {
      if a.operator != b.operator && b.operator != c.operator {
        StringLessTransitive(a.operator, b.operator, c.operator);
        StringLessTotal(a.operator, b.operator);
      } else if a.operator == b.operator == c.operator {
        StringLessTransitive(a.json, b.json, c.json);
      }
    }
  }

  lemma ConditionLessIsWeakOrder()
    ensures WeakOrder(ConditionLess)
  {
    forall x, y | ConditionLess(x, y) ensures !ConditionLess(y, x) {
      EncodedLessTotal(Encode(x), Encode(y));
    }
    forall x, y, z | ConditionLess(x, z) ensures ConditionLess(x, y) || ConditionLess(y, z) {
      EncodedLessWeak(Encode(x), Encode(y), Encode(z));
    }
  }

  /** A sorted copy of the conditions, the caller's list untouched. */
  function CanonicalizeConditions(conditions: seq<Condition>): (canonical: seq<Condition>)
    ensures IsSortOf(ConditionLess, conditions, canonical)
  {
    ConditionLessIsWeakOrder();
    SortIsSortOf(ConditionLess, conditions);
    Sort(ConditionLess, conditions)
  }

  /** The canonical list goes by field, then operator, then JSON text. */
  lemma CanonicalOrder(conditions: seq<Condition>, i: nat, j: nat)
    requires i < j < |CanonicalizeConditions(conditions)|
    ensures var a, b := CanonicalizeConditions(conditions)[i], CanonicalizeConditions(conditions)[j];
      && !StringLess(b.field, a.field)
      && (a.field == b.field ==> !StringLess(b.operator, a.operator))
      && (a.field == b.field && a.operator == b.operator ==> !StringLess(b.value.json, a.value.json))
  {
    var a, b := CanonicalizeConditions(conditions)[i], CanonicalizeConditions(conditions)[j];
    assert !ConditionLess(b, a);
    StringLessTotal(a.field, a.field);
    StringLessTotal(a.operator, a.operator);
  }

  lemma EncodedSorted(canonical: seq<Condition>)
    ensures Sorted(ConditionLess, canonical) ==> Sorted(EncodedLess, Map(Encode, canonical))
  {
  }

  /** Any two sorts of two lists encode alike exactly when the lists are permutations by encoding. */
  lemma CanonicalFormIsUnique(a: seq<Condition>, b: seq<Condition>, sortedA: seq<Condition>, sortedB: seq<Condition>)
    requires IsSortOf(ConditionLess, a, sortedA) && IsSortOf(ConditionLess, b, sortedB)
    ensures Map(Encode, sortedA) == Map(Encode, sortedB) <==> multiset(Map(Encode, a)) == multiset(Map(Encode, b))
  {
    MapMultiset(Encode, sortedA, a);
    MapMultiset(Encode, sortedB, b);
    var x, y := Map(Encode, sortedA), Map(Encode, sortedB);
    if multiset(x) == multiset(y) {
      EncodedSorted(sortedA);
      EncodedSorted(sortedB);
      forall p, q | p in x && q in x && !EncodedLess(p, q) && !EncodedLess(q, p) ensures p == q {
        EncodedLessTotal(p, q);
      }
      SortUnique(EncodedLess, x, y);
    }
  }

  // ----- The hash

  ghost predicate Injective<T(!new), U(!new)>(h: T -> U) {
    forall x, y :: h(x) == h(y) ==> x == y
  }

  /** `h` stands for SHA-256 over the JSON text of the canonical list. */
  function ConditionsHash(h: seq<Encoded> -> string, conditions: seq<Condition>): string {
    h(Map(Encode, CanonicalizeConditions(conditions)))
  }

  /** Equal hashes exactly for permutations, values compared by their encoding. */
  lemma HashIffPermutation(h: seq<Encoded> -> string, a: seq<Condition>, b: seq<Condition>)
    requires Injective(h)
    ensures ConditionsHash(h, a) == ConditionsHash(h, b) <==> multiset(Map(Encode, a)) == multiset(Map(Encode, b))
  {
    CanonicalFormIsUnique(a, b, CanonicalizeConditions(a), CanonicalizeConditions(b));
  }
}
