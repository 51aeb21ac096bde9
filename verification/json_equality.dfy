/** The structural comparison of JSON values the autosave queue uses: it counts own keys and looks them up one way. */
module JsonEquality {
  import opened Base

  // Number(n) is the number n; other scalars are strings, booleans, null and the remaining numbers.
  datatype Json = Number(value: int) | Other(id: int) | Array(items: seq<Json>) | Object(names: seq<string>, values: seq<Json>)

  predicate Scalar(v: Json) {
    v.Number? || v.Other?
  }

  // An object lists each own key once.
  ghost predicate Proper(v: Json)
    decreases v
  {
    match v
    case Number(_) => true
    case Other(_) => true
    case Array(items) => forall i | 0 <= i < |items| :: Proper(items[i])
    case Object(names, values) =>
      |names| == |values| && Unique(names) && forall i | 0 <= i < |values| :: Proper(values[i])
  }

  predicate Unique(names: seq<string>) {
    forall i, j | 0 <= i < j < |names| :: names[i] != names[j]
  }

  function Decimal(n: nat): string {
    if n < 10 then ["0123456789"[n]] else Decimal(n / 10) + ["0123456789"[n % 10]]
  }

  lemma {:induction false} DecimalUnique(m: nat, n: nat)
    requires Decimal(m) == Decimal(n)
    ensures m == n
  {
    var a, b := Decimal(m), Decimal(n);
    assert a[|a| - 1] == b[|b| - 1] && m % 10 == n % 10;
    assert |a| == 1 <==> m < 10;
    if m >= 10 {
      assert a[..|a| - 1] == Decimal(m / 10) && b[..|b| - 1] == Decimal(n / 10);
      DecimalUnique(m / 10, n / 10);
    }
  }

  lemma LengthIsNoIndex(n: nat)
    ensures Decimal(n) != LENGTH
  {
    var s := Decimal(n);
    assert s[|s| - 1] in "0123456789";
  }

  const LENGTH := "length"

  // Object.keys
  function Keys(v: Json): seq<string> {
    match v
    case Number(_) => []
    case Other(_) => []
    case Array(items) => seq(|items|, i requires 0 <= i < |items| => Decimal(i))
    case Object(names, _) => names
  }

  function Children(v: Json): seq<Json> {
    match v
    case Number(_) => []
    case Other(_) => []
    case Array(items) => items
    case Object(_, values) => values
  }

  lemma KeysUnique(v: Json)
    requires Proper(v)
    ensures Unique(Keys(v)) && |Keys(v)| == |Children(v)|
    ensures forall i | 0 <= i < |Children(v)| :: Proper(Children(v)[i])
  {
    if v.Array? {
      forall i, j | 0 <= i < j < |Keys(v)|
        ensures Keys(v)[i] != Keys(v)[j]
      {
        if Decimal(i) == Decimal(j) { DecimalUnique(i, j); }
      }
    }
  }

  function IndexOf(names: seq<string>, name: string): (i: int)
    ensures i < 0 ==> name !in names
    ensures i >= 0 ==> i < |names| && names[i] == name
  {
    if names == [] then -1
    else if names[|names| - 1] == name then |names| - 1
    else IndexOf(names[..|names| - 1], name)
  }

  // Object.hasOwn and the property read: an array also owns its length, which Object.keys does not list.
  function Own(v: Json, key: string): (r: Option<Json>)
    requires Proper(v)
    ensures r.Some? ==> Proper(r.value)
  {
    KeysUnique(v);
    var j := IndexOf(Keys(v), key);
    if j >= 0 then Some(Children(v)[j])
    else if v.Array? && key == LENGTH then Some(Number(|v.items|))
    else None
  }

  // Same number of keys, and every key of the first is the second's own with an equal value.
  predicate Equal(a: Json, b: Json)
    requires Proper(a) && Proper(b)
    decreases a
  {
    KeysUnique(a);
    if Scalar(a) || Scalar(b) then a == b
    else
      && |Keys(a)| == |Keys(b)|
      && forall i | 0 <= i < |Children(a)| ::
           var own := Own(b, Keys(a)[i]);
           own.Some? && Equal(Children(a)[i], own.value)
  }

  // ----- what the comparison decides -----

  // The same keys, with alike values under each; the keys of an array are its indices.
  ghost predicate AlikeByKeys(a: Json, b: Json)
    requires Proper(a) && Proper(b)
    decreases a, 0
  {
    KeysUnique(a);
    KeysUnique(b);
    && SameNames(Keys(a), Keys(b))
    && forall i, j | 0 <= i < |Children(a)| && 0 <= j < |Children(b)| && Keys(a)[i] == Keys(b)[j] ::
         Alike(Children(a)[i], Children(b)[j])
  }

  // An object of as many keys as the array has items: "length" with that number, and indices of alike items.
  ghost predicate AlikeByLength(a: Json, b: Json)
    requires Proper(a) && Proper(b)
    decreases a, 0
  {
    && a.Object? && b.Array? && |a.names| == |b.items| && LENGTH in a.names
    && forall i | 0 <= i < |a.names| ::
         if a.names[i] == LENGTH then a.values[i] == Number(|b.items|)
         else exists j :: 0 <= j < |b.items| && a.names[i] == Decimal(j) && Alike(a.values[i], b.items[j])
  }

  ghost predicate Alike(a: Json, b: Json)
    requires Proper(a) && Proper(b)
    decreases a, 1
  {
    if Scalar(a) || Scalar(b) then a == b else AlikeByKeys(a, b) || AlikeByLength(a, b)
  }

  // The same JSON value: equal arrays element by element, equal objects key by key in any order.
  ghost predicate Same(a: Json, b: Json)
    requires Proper(a) && Proper(b)
    decreases a
  {
    match (a, b)
    case (Array(these), Array(those)) =>
      |these| == |those| && forall i | 0 <= i < |these| :: Same(these[i], those[i])
    case (Object(names, values), Object(others, theirs)) =>
      && SameNames(names, others)
      && forall i, j | 0 <= i < |names| && 0 <= j < |others| && names[i] == others[j] :: Same(values[i], theirs[j])
    case _ => Scalar(a) && a == b
  }

  // Arrays meet arrays and objects meet objects wherever the two values share a path of keys.
  ghost predicate SameShape(a: Json, b: Json)
    requires Proper(a) && Proper(b)
    decreases a
  {
    KeysUnique(a);
    KeysUnique(b);
    && (a.Array? <==> b.Array?)
    && forall i, j | 0 <= i < |Children(a)| && 0 <= j < |Children(b)| && Keys(a)[i] == Keys(b)[j] ::
         SameShape(Children(a)[i], Children(b)[j])
  }

  // ----- names -----

  lemma {:induction false} NameCount(names: seq<string>)
    requires Unique(names)
    ensures |set n | n in names| == |names|
  {
    if names != [] {
      var k := |names| - 1;
      NameCount(names[..k]);
      assert names == names[..k] + [names[k]];
      assert (set n | n in names) == (set n | n in names[..k]) + {names[k]};
    }
  }

  predicate SameNames(names: seq<string>, others: seq<string>) {
    (forall n | n in names :: n in others) && forall n | n in others :: n in names
  }

  // Distinct names, as many on either side and none of the first missing in the second: the same names.
  lemma CountingNames(names: seq<string>, others: seq<string>)
    requires Unique(names) && Unique(others)
    requires |names| == |others| && forall n | n in names :: n in others
    ensures SameNames(names, others)
  {
    var a, b := set n | n in names, set n | n in others;
    NameCount(names);
    NameCount(others);
    assert a <= b && b == a + (b - a);
    assert forall n | n in others :: n in b;
  }

  lemma SameNamesCount(names: seq<string>, others: seq<string>)
    requires Unique(names) && Unique(others) && SameNames(names, others)
    ensures |names| == |others|
  {
    NameCount(names);
    NameCount(others);
    assert (set n | n in names) == (set n | n in others);
  }

  lemma OneIndex(names: seq<string>, j: nat)
    requires Unique(names) && j < |names|
    ensures IndexOf(names, names[j]) == j
  {
    assert names[j] in names;
  }

  // Arrays have the same keys iff they have the same length, and then the same key means the same index.
  lemma SameArrays(a: Json, b: Json)
    requires a.Array? && b.Array?
    ensures |a.items| == |b.items| <==> SameNames(Keys(a), Keys(b))
    ensures forall i, j | 0 <= i < |a.items| && 0 <= j < |b.items| :: Keys(a)[i] == Keys(b)[j] <==> i == j
  {
    forall i, j | 0 <= i < |a.items| && 0 <= j < |b.items|
      ensures Keys(a)[i] == Keys(b)[j] <==> i == j
    {
      if Decimal(i) == Decimal(j) { DecimalUnique(i, j); }
    }
    if |a.items| == |b.items| {
      assert Keys(a) == Keys(b);
    } else if |a.items| < |b.items| {
      assert Keys(b)[|a.items|] in Keys(b) && Keys(b)[|a.items|] !in Keys(a) by { Missing(b, a); }
    } else {
      assert Keys(a)[|b.items|] in Keys(a) && Keys(a)[|b.items|] !in Keys(b) by { Missing(a, b); }
    }
  }

  lemma Missing(a: Json, b: Json)
    requires a.Array? && b.Array? && |b.items| < |a.items|
    ensures Keys(a)[|b.items|] !in Keys(b)
  {
    if Keys(a)[|b.items|] in Keys(b) {
      var j :| 0 <= j < |b.items| && Keys(b)[j] == Decimal(|b.items|);
      DecimalUnique(j, |b.items|);
    }
  }

  // ----- one level of the comparison -----

  ghost predicate EqualByKeys(a: Json, b: Json)
    requires Proper(a) && Proper(b)
  {
    KeysUnique(a);
    KeysUnique(b);
    && SameNames(Keys(a), Keys(b))
    && forall i, j | 0 <= i < |Children(a)| && 0 <= j < |Children(b)| && Keys(a)[i] == Keys(b)[j] ::
         Equal(Children(a)[i], Children(b)[j])
  }

  ghost predicate EqualByLength(a: Json, b: Json)
    requires Proper(a) && Proper(b)
  {
    && a.Object? && b.Array? && |a.names| == |b.items| && LENGTH in a.names
    && forall i | 0 <= i < |a.names| ::
         if a.names[i] == LENGTH then a.values[i] == Number(|b.items|)
         else exists j :: 0 <= j < |b.items| && a.names[i] == Decimal(j) && Equal(a.values[i], b.items[j])
  }

  lemma EqualOneLevel(a: Json, b: Json)
    requires Proper(a) && Proper(b) && !Scalar(a) && !Scalar(b)
    ensures Equal(a, b) <==> EqualByKeys(a, b) || EqualByLength(a, b)
  {
    hide EqualByKeys, EqualByLength, Equal, Keys;
    if Equal(a, b) {
      if forall n | n in Keys(a) :: n in Keys(b) { EqualMeansKeys(a, b); } else { EqualMeansLength(a, b); }
    }
    if EqualByKeys(a, b) { KeysMeanEqual(a, b); }
    if EqualByLength(a, b) { LengthMeansEqual(a, b); }
  }

  lemma EqualAt(a: Json, b: Json, i: nat, j: nat)
    requires Proper(a) && Proper(b) && !Scalar(a) && !Scalar(b) && Equal(a, b)
    requires i < |Keys(a)| && j < |Keys(b)| && Keys(a)[i] == Keys(b)[j]
    ensures i < |Children(a)| && j < |Children(b)| && Proper(Children(a)[i]) && Proper(Children(b)[j])
    ensures Equal(Children(a)[i], Children(b)[j])
  {
    KeysUnique(a);
    KeysUnique(b);
    hide Keys, Children, Proper, Unique;
    OneIndex(Keys(b), j);
  }

  lemma EqualMeansKeys(a: Json, b: Json)
    requires Proper(a) && Proper(b) && !Scalar(a) && !Scalar(b) && Equal(a, b)
    requires forall n | n in Keys(a) :: n in Keys(b)
    ensures EqualByKeys(a, b)
  {
    KeysUnique(a);
    KeysUnique(b);
    CountingNames(Keys(a), Keys(b));
    forall i, j | 0 <= i < |Children(a)| && 0 <= j < |Children(b)| && Keys(a)[i] == Keys(b)[j]
      ensures Equal(Children(a)[i], Children(b)[j])
    {
      EqualAt(a, b, i, j);
    }
    hide Keys, Children, Proper, Unique, Equal, SameNames;
  }

  // The only key found without being listed is the length of an array, which only an object can ask for.
  lemma EqualMeansLength(a: Json, b: Json)
    requires Proper(a) && Proper(b) && !Scalar(a) && !Scalar(b) && Equal(a, b)
    requires !forall n | n in Keys(a) :: n in Keys(b)
    ensures EqualByLength(a, b)
  {
    KeysUnique(a);
    KeysUnique(b);
    var n :| n in Keys(a) && n !in Keys(b);
    var k :| 0 <= k < |Keys(a)| && Keys(a)[k] == n;
    LengthIsNoIndex(k);
    assert Own(b, Keys(a)[k]).Some? && n == LENGTH && b.Array? && a.Object?;
    forall i | 0 <= i < |a.names|
      ensures if a.names[i] == LENGTH then a.values[i] == Number(|b.items|)
              else exists j :: 0 <= j < |b.items| && a.names[i] == Decimal(j) && Equal(a.values[i], b.items[j])
    {
      FoundIn(a, b, i);
    }
  }

  lemma FoundIn(a: Json, b: Json, i: nat)
    requires Proper(a) && Proper(b) && a.Object? && b.Array? && Equal(a, b) && i < |a.names|
    ensures a.names[i] == LENGTH ==> a.values[i] == Number(|b.items|)
    ensures a.names[i] != LENGTH ==> exists j :: 0 <= j < |b.items| && a.names[i] == Decimal(j) && Equal(a.values[i], b.items[j])
  {
    KeysUnique(b);
    var j := IndexOf(Keys(b), a.names[i]);
    assert Own(b, Keys(a)[i]).Some? && Equal(Children(a)[i], Own(b, Keys(a)[i]).value);
    if a.names[i] == LENGTH {
      if j >= 0 { LengthIsNoIndex(j); }
    } else {
      assert Keys(b)[j] == Decimal(j);
    }
  }

  lemma KeysMeanEqual(a: Json, b: Json)
    requires Proper(a) && Proper(b) && !Scalar(a) && !Scalar(b) && EqualByKeys(a, b)
    ensures Equal(a, b)
  {
    KeysUnique(a);
    KeysUnique(b);
    SameNamesCount(Keys(a), Keys(b));
    hide Keys, Children, Proper, Unique;
    forall i | 0 <= i < |Children(a)|
      ensures var own := Own(b, Keys(a)[i]); own.Some? && Equal(Children(a)[i], own.value)
    {
      assert Keys(a)[i] in Keys(a);
    }
  }

  lemma LengthMeansEqual(a: Json, b: Json)
    requires Proper(a) && Proper(b) && EqualByLength(a, b)
    ensures Equal(a, b)
  {
    KeysUnique(b);
    forall i | 0 <= i < |a.names|
      ensures var own := Own(b, a.names[i]); own.Some? && Equal(a.values[i], own.value)
    {
      if a.names[i] == LENGTH {
        var j := IndexOf(Keys(b), LENGTH);
        if j >= 0 { LengthIsNoIndex(j); }
      } else {
        var j :| 0 <= j < |b.items| && a.names[i] == Decimal(j) && Equal(a.values[i], b.items[j]);
        assert Keys(b)[j] == Decimal(j);
        OneIndex(Keys(b), j);
      }
    }
  }

  // ----- theorems -----

  /** For any two values: the comparison is likeness, by keys or, of an object to an array, by its length. */
  lemma {:induction false} EqualIsAlike(a: Json, b: Json)
    requires Proper(a) && Proper(b)
    ensures Equal(a, b) <==> Alike(a, b)
    decreases a
  {
    if !Scalar(a) && !Scalar(b) {
      KeysUnique(a);
      KeysUnique(b);
      EqualOneLevel(a, b);
      forall i, j | 0 <= i < |Children(a)| && 0 <= j < |Children(b)|
        ensures Equal(Children(a)[i], Children(b)[j]) <==> Alike(Children(a)[i], Children(b)[j])
      {
        EqualIsAlike(Children(a)[i], Children(b)[j]);
      }
      AlikeLevel(a, b);
    }
  }

  lemma AlikeLevel(a: Json, b: Json)
    requires Proper(a) && Proper(b) && !Scalar(a) && !Scalar(b)
    requires |Children(a)| == |Keys(a)| && |Children(b)| == |Keys(b)|
    requires forall i | 0 <= i < |Children(a)| :: Proper(Children(a)[i])
    requires forall j | 0 <= j < |Children(b)| :: Proper(Children(b)[j])
    requires forall i, j | 0 <= i < |Children(a)| && 0 <= j < |Children(b)| ::
      Equal(Children(a)[i], Children(b)[j]) <==> Alike(Children(a)[i], Children(b)[j])
    ensures EqualByKeys(a, b) <==> AlikeByKeys(a, b)
    ensures EqualByLength(a, b) <==> AlikeByLength(a, b)
  {
    hide Keys, Equal, Alike, SameNames;
    if a.Object? && b.Array? {
      forall i, j | 0 <= i < |a.names| && 0 <= j < |b.items|
        ensures Equal(a.values[i], b.items[j]) <==> Alike(a.values[i], b.items[j])
      {
        assert Children(a)[i] == a.values[i] && Children(b)[j] == b.items[j];
      }
    }
  }

  /** The same value means equal by the comparison, and arrays meeting arrays throughout. */
  lemma {:induction false} EqualIsSame(a: Json, b: Json)
    requires Proper(a) && Proper(b)
    ensures Same(a, b) <==> Equal(a, b) && SameShape(a, b)
    decreases a
  {
    if !Scalar(a) && !Scalar(b) {
      KeysUnique(a);
      KeysUnique(b);
      EqualOneLevel(a, b);
      forall i, j | 0 <= i < |Children(a)| && 0 <= j < |Children(b)|
        ensures Same(Children(a)[i], Children(b)[j])
                <==> Equal(Children(a)[i], Children(b)[j]) && SameShape(Children(a)[i], Children(b)[j])
      {
        EqualIsSame(Children(a)[i], Children(b)[j]);
      }
      if a.Array? && b.Array? { SameArrays(a, b); }
    }
  }

  /** So it answers wrongly exactly when the values are alike and an array meets an object; two that agree in shape are safe. */
  lemma WrongIffShapesDiffer(a: Json, b: Json)
    requires Proper(a) && Proper(b)
    ensures (Equal(a, b) <==> Same(a, b)) <==> !(Alike(a, b) && !SameShape(a, b))
  {
    EqualIsAlike(a, b);
    EqualIsSame(a, b);
  }

  // A value equals itself.
  lemma {:induction false} EqualToItself(a: Json)
    requires Proper(a)
    ensures Equal(a, a)
    decreases a
  {
    if !Scalar(a) {
      KeysUnique(a);
      forall i, j | 0 <= i < |Children(a)| && 0 <= j < |Children(a)| && Keys(a)[i] == Keys(a)[j]
        ensures Equal(Children(a)[i], Children(a)[j])
      {
        EqualToItself(Children(a)[i]);
      }
      EqualOneLevel(a, a);
    }
  }

  // ----- the shortcut for identical objects -----

  // What the code may answer: at once when the two are one object, else by its children's answers.
  ghost predicate MayAnswer(a: Json, b: Json, r: bool)
    requires Proper(a) && Proper(b)
    decreases a, 1
  {
    (r && a == b) || exists answers :: Answers(a, b, answers, r)
  }

  ghost predicate Answers(a: Json, b: Json, answers: seq<bool>, r: bool)
    requires Proper(a) && Proper(b)
    decreases a, 0
  {
    KeysUnique(a);
    if Scalar(a) || Scalar(b) then r == (a == b)
    else
      && |answers| == |Children(a)|
      && (forall i | 0 <= i < |answers| ::
            var own := Own(b, Keys(a)[i]);
            if own.None? then !answers[i] else MayAnswer(Children(a)[i], own.value, answers[i]))
      && (r <==> |Keys(a)| == |Keys(b)| && forall i | 0 <= i < |answers| :: answers[i])
  }

  /** Wherever the code stops early at identical objects, its answer is that of the full comparison. */
  lemma {:induction false} ShortcutIsSound(a: Json, b: Json, r: bool)
    requires Proper(a) && Proper(b) && MayAnswer(a, b, r)
    ensures r == Equal(a, b)
    decreases a
  {
    if r && a == b {
      EqualToItself(a);
    } else {
      var answers :| Answers(a, b, answers, r);
      if !Scalar(a) && !Scalar(b) {
        KeysUnique(a);
        hide Keys, Own, Equal;
        forall i | 0 <= i < |answers|
          ensures AnswersRightly(a, b, answers, i)
        {
          var own := Own(b, Keys(a)[i]);
          if own.Some? { ShortcutIsSound(Children(a)[i], own.value, answers[i]); }
        }
        AllRightly(a, b, answers, r);
      }
    }
  }

  predicate AnswersRightly(a: Json, b: Json, answers: seq<bool>, i: nat)
    requires Proper(a) && Proper(b) && i < |answers| == |Children(a)|
  {
    KeysUnique(a);
    var own := Own(b, Keys(a)[i]);
    answers[i] == (own.Some? && Equal(Children(a)[i], own.value))
  }

  lemma AllRightly(a: Json, b: Json, answers: seq<bool>, r: bool)
    requires Proper(a) && Proper(b) && !Scalar(a) && !Scalar(b) && |answers| == |Children(a)|
    requires forall i | 0 <= i < |answers| :: AnswersRightly(a, b, answers, i)
    requires r <==> |Keys(a)| == |Keys(b)| && forall i | 0 <= i < |answers| :: answers[i]
    ensures r == Equal(a, b)
  {
    KeysUnique(a);
    hide Keys, Own;
    if forall i | 0 <= i < |answers| :: answers[i] {
      forall i | 0 <= i < |Children(a)|
        ensures var own := Own(b, Keys(a)[i]); own.Some? && Equal(Children(a)[i], own.value)
      {
        assert AnswersRightly(a, b, answers, i);
      }
    } else {
      var i :| 0 <= i < |answers| && !answers[i];
      assert AnswersRightly(a, b, answers, i);
    }
  }

  // ----- inputs -----

  /** An array passes for an object: an empty list equals an empty record, and ["x"] equals {"0": "x"}. */
  lemma ArraysPassForObjects(x: Json)
    requires Scalar(x)
    ensures var list, record := Array([x]), Object(["0"], [x]);
      Proper(list) && Proper(record) && Equal(list, record) && !Same(list, record)
    ensures Equal(Array([]), Object([], [])) && !Same(Array([]), Object([], []))
  {
    var list, record := Array([x]), Object(["0"], [x]);
    assert Keys(list) == ["0"];
    assert IndexOf(["0"], "0") == 0;
    assert Children(list)[0] == x && Children(record)[0] == x;
  }

  /** And the comparison is not symmetric: {"length": 1} equals any list of one item, which does not equal it. */
  lemma LengthPassesOneWay(x: Json)
    requires Proper(x)
    ensures var record, list := Object([LENGTH], [Number(1)]), Array([x]);
      Proper(record) && Proper(list) && Equal(record, list) && !Equal(list, record)
  {
    var record, list := Object([LENGTH], [Number(1)]), Array([x]);
    assert Keys(list) == ["0"];
    assert IndexOf(["0"], LENGTH) == -1 && IndexOf([LENGTH], "0") == -1;
    assert Own(record, Keys(list)[0]).None?;
  }

  // ----- which values can be mistaken -----

  predicate IsIndex(name: string, n: nat) {
    exists j :: 0 <= j < n && name == Decimal(j)
  }

  // An object the comparison cannot tell from some array: every key an index, or all but a fitting "length".
  predicate PosesAsArray(v: Json)
    requires v.Object? && |v.names| == |v.values|
  {
    forall i | 0 <= i < |v.names| ::
      IsIndex(v.names[i], |v.names|) || (v.names[i] == LENGTH && v.values[i] == Number(|v.names|))
  }

  ghost predicate Mistakable(v: Json)
    requires Proper(v)
    decreases v
  {
    KeysUnique(v);
    v.Array? || (v.Object? && PosesAsArray(v)) || exists i :: 0 <= i < |Children(v)| && Mistakable(Children(v)[i])
  }

  // The array that object poses as.
  function Posed(v: Json): Json
    requires v.Object? && |v.names| == |v.values|
  {
    Array(seq(|v.names|, j requires 0 <= j < |v.names| =>
      var k := IndexOf(v.names, Decimal(j)); if k >= 0 then v.values[k] else Number(0)))
  }

  lemma PosedIsEqual(v: Json)
    requires Proper(v) && v.Object? && PosesAsArray(v)
    ensures Proper(Posed(v)) && Equal(v, Posed(v)) && !Same(v, Posed(v))
  {
    var b := Posed(v);
    KeysUnique(b);
    forall i | 0 <= i < |v.names|
      ensures var own := Own(b, v.names[i]); own.Some? && Equal(v.values[i], own.value)
    {
      if v.names[i] == LENGTH {
        var j := IndexOf(Keys(b), LENGTH);
        if j >= 0 { LengthIsNoIndex(j); }
        if IsIndex(LENGTH, |v.names|) {
          var k :| 0 <= k < |v.names| && LENGTH == Decimal(k);
          LengthIsNoIndex(k);
        }
      } else {
        var j :| 0 <= j < |v.names| && v.names[i] == Decimal(j);
        assert Keys(b)[j] == Decimal(j);
        OneIndex(Keys(b), j);
        OneIndex(v.names, i);
        EqualToItself(v.values[i]);
      }
    }
  }

  lemma ArrayIsEqual(v: Json)
    requires Proper(v) && v.Array?
    ensures var record := Object(Keys(v), v.items); Proper(record) && Equal(v, record) && !Same(v, record)
  {
    KeysUnique(v);
    var record := Object(Keys(v), v.items);
    forall i | 0 <= i < |v.items|
      ensures var own := Own(record, Keys(v)[i]); own.Some? && Equal(v.items[i], own.value)
    {
      OneIndex(Keys(v), i);
      EqualToItself(v.items[i]);
    }
  }

  // The object with one value exchanged.
  lemma ExchangedIsEqual(v: Json, i: nat, w: Json)
    requires Proper(v) && v.Object? && i < |v.values| && Proper(w) && Equal(v.values[i], w) && !Same(v.values[i], w)
    ensures var next := v.(values := v.values[i := w]); Proper(next) && Equal(v, next) && !Same(v, next)
  {
    var next := v.(values := v.values[i := w]);
    KeysUnique(next);
    forall k | 0 <= k < |v.names|
      ensures var own := Own(next, v.names[k]); own.Some? && Equal(v.values[k], own.value)
    {
      OneIndex(v.names, k);
      EqualToItself(v.values[k]);
    }
    assert v.names[i] == next.names[i];
  }

  /**
   * Exactly which values can be mistaken: some different value is equal by the comparison iff the first contains an
   * array, or an object whose keys are its indices or all but a fitting "length".
   */
  lemma {:induction false} MistakenIffMistakable(a: Json)
    requires Proper(a)
    ensures (exists b :: Proper(b) && Equal(a, b) && !Same(a, b)) <==> Mistakable(a)
    decreases a
  {
    KeysUnique(a);
    if Mistakable(a) {
      if a.Array? {
        ArrayIsEqual(a);
      } else if PosesAsArray(a) {
        PosedIsEqual(a);
      } else {
        var i :| 0 <= i < |Children(a)| && Mistakable(Children(a)[i]);
        MistakenIffMistakable(a.values[i]);
        var w :| Proper(w) && Equal(a.values[i], w) && !Same(a.values[i], w);
        ExchangedIsEqual(a, i, w);
      }
    }
    if b :| Proper(b) && Equal(a, b) && !Same(a, b) {
      MistakenMeans(a, b);
    }
  }

  lemma {:induction false} MistakenMeans(a: Json, b: Json)
    requires Proper(a) && Proper(b) && Equal(a, b) && !Same(a, b)
    ensures Mistakable(a)
    decreases a
  {
    if !a.Array? {
      KeysUnique(a);
      KeysUnique(b);
      EqualOneLevel(a, b);
      if b.Array? {
        EqualPoses(a, b);
      } else {
        var i, j :| 0 <= i < |a.names| && 0 <= j < |b.names| && a.names[i] == b.names[j] && !Same(a.values[i], b.values[j]);
        EqualAt(a, b, i, j);
        MistakenMeans(a.values[i], b.values[j]);
        assert Mistakable(Children(a)[i]);
      }
    }
  }

  lemma EqualPoses(a: Json, b: Json)
    requires Proper(a) && Proper(b) && a.Object? && b.Array? && Equal(a, b)
    ensures PosesAsArray(a)
  {
    KeysUnique(b);
    forall i | 0 <= i < |a.names|
      ensures IsIndex(a.names[i], |a.names|) || (a.names[i] == LENGTH && a.values[i] == Number(|a.names|))
    {
      FoundIn(a, b, i);
    }
  }

  // ----- both ways round -----

  // Every array replaced by the object of its indices.
  function AsObjects(v: Json): Json
    decreases v
  {
    match v
    case Number(_) => v
    case Other(_) => v
    case Array(items) => Object(Keys(v), seq(|items|, i requires 0 <= i < |items| => AsObjects(items[i])))
    case Object(names, values) => Object(names, seq(|values|, i requires 0 <= i < |values| => AsObjects(values[i])))
  }

  lemma {:induction false} AsObjectsProper(v: Json)
    requires Proper(v)
    ensures Proper(AsObjects(v))
    decreases v
  {
    KeysUnique(v);
    forall i | 0 <= i < |Children(v)|
      ensures Proper(AsObjects(Children(v)[i]))
    {
      AsObjectsProper(Children(v)[i]);
    }
  }

  lemma ChildrenAsObjects(v: Json)
    requires Proper(v)
    ensures forall i | 0 <= i < |Children(v)| :: Proper(AsObjects(Children(v)[i]))
  {
    KeysUnique(v);
    forall i | 0 <= i < |Children(v)|
      ensures Proper(AsObjects(Children(v)[i]))
    {
      AsObjectsProper(Children(v)[i]);
    }
  }

  lemma SameObjects(a: Json, b: Json)
    requires Proper(a) && Proper(b) && !Scalar(a) && !Scalar(b)
    requires Proper(AsObjects(a)) && Proper(AsObjects(b))
    requires forall i | 0 <= i < |Children(a)| :: Proper(AsObjects(Children(a)[i]))
    requires forall j | 0 <= j < |Children(b)| :: Proper(AsObjects(Children(b)[j]))
    ensures |Keys(a)| == |Children(a)| && |Keys(b)| == |Children(b)|
    ensures Same(AsObjects(a), AsObjects(b)) <==>
      && SameNames(Keys(a), Keys(b))
      && forall i, j | 0 <= i < |Children(a)| && 0 <= j < |Children(b)| && Keys(a)[i] == Keys(b)[j] ::
           Same(AsObjects(Children(a)[i]), AsObjects(Children(b)[j]))
  {
    KeysUnique(a);
    KeysUnique(b);
    ObjectOf(a);
    ObjectOf(b);
    hide Keys, Children, AsObjects, Proper;
  }

  lemma ObjectOf(v: Json)
    requires !Scalar(v)
    ensures AsObjects(v).Object? && AsObjects(v).names == Keys(v) && |AsObjects(v).values| == |Children(v)|
    ensures forall i | 0 <= i < |Children(v)| :: AsObjects(v).values[i] == AsObjects(Children(v)[i])
  {
  }

  // An object alike to an array by its length lacks one of the indices the other way round asks for.
  lemma LengthIsOneWay(a: Json, b: Json)
    requires Proper(a) && Proper(b) && EqualByLength(a, b)
    ensures !Equal(b, a)
  {
    if Equal(b, a) {
      KeysUnique(a);
      KeysUnique(b);
      forall n | n in Keys(b)
        ensures n in a.names
      {
        var j :| 0 <= j < |Keys(b)| && Keys(b)[j] == n;
        assert Own(a, Keys(b)[j]).Some?;
      }
      CountingNames(Keys(b), a.names);
      var j :| 0 <= j < |Keys(b)| && Keys(b)[j] == LENGTH;
      LengthIsNoIndex(j);
    }
  }

  /** Asked both ways round it decides equality of the values with every array read as the object of its indices. */
  lemma {:induction false} BothWaysReadsArraysAsObjects(a: Json, b: Json)
    requires Proper(a) && Proper(b)
    ensures Proper(AsObjects(a)) && Proper(AsObjects(b))
    ensures Equal(a, b) && Equal(b, a) <==> Same(AsObjects(a), AsObjects(b))
    decreases a
  {
    AsObjectsProper(a);
    AsObjectsProper(b);
    if !Scalar(a) && !Scalar(b) {
      KeysUnique(a);
      KeysUnique(b);
      EqualOneLevel(a, b);
      EqualOneLevel(b, a);
      if EqualByLength(a, b) { LengthIsOneWay(a, b); }
      if EqualByLength(b, a) { LengthIsOneWay(b, a); }
      ChildrenAsObjects(a);
      ChildrenAsObjects(b);
      forall i, j | 0 <= i < |Children(a)| && 0 <= j < |Children(b)|
        ensures Equal(Children(a)[i], Children(b)[j]) && Equal(Children(b)[j], Children(a)[i])
                <==> Same(AsObjects(Children(a)[i]), AsObjects(Children(b)[j]))
      {
        BothWaysReadsArraysAsObjects(Children(a)[i], Children(b)[j]);
      }
      BothWaysLevel(a, b);
    }
  }

  lemma BothWaysLevel(a: Json, b: Json)
    requires Proper(a) && Proper(b) && !Scalar(a) && !Scalar(b)
    requires Proper(AsObjects(a)) && Proper(AsObjects(b))
    requires |Keys(a)| == |Children(a)| && |Keys(b)| == |Children(b)|
    requires forall i | 0 <= i < |Children(a)| :: Proper(Children(a)[i]) && Proper(AsObjects(Children(a)[i]))
    requires forall j | 0 <= j < |Children(b)| :: Proper(Children(b)[j]) && Proper(AsObjects(Children(b)[j]))
    requires Equal(a, b) && Equal(b, a) <==> EqualByKeys(a, b) && EqualByKeys(b, a)
    requires forall i, j | 0 <= i < |Children(a)| && 0 <= j < |Children(b)| ::
      Equal(Children(a)[i], Children(b)[j]) && Equal(Children(b)[j], Children(a)[i])
      <==> Same(AsObjects(Children(a)[i]), AsObjects(Children(b)[j]))
    ensures Equal(a, b) && Equal(b, a) <==> Same(AsObjects(a), AsObjects(b))
  {
    SameObjects(a, b);
    hide Keys, Children, AsObjects, Proper, Equal, Same;
  }
}
