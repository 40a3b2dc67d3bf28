/** The budgeted structural comparison of two JSON documents. */
module ContractDiff {
  import opened Common
  import opened Sorting

  datatype Json =
    | Null
    | Bool(b: bool)
    | Number(n: real)
    | Str(s: string)
    | Arr(items: seq<Json>)
    | Obj(fields: map<string, Json>)

  datatype Step = Field(key: string) | Index(index: nat)

  type Path = seq<Step>

  datatype JsonType = NullType | BoolType | NumberType | StringType | ArrayType | ObjectType

  /** One reported difference; rendering it as a line of text is not modelled. */
  datatype Difference =
    | TypeDiffers(path: Path, legacy: JsonType, go: JsonType)
    | PresenceDiffers(path: Path, key: string, inLegacy: bool, inGo: bool)
    | LengthDiffers(path: Path, legacyLength: nat, goLength: nat)
    | ValueDiffers(path: Path, legacyValue: Json, goValue: Json)

  function TypeOf(j: Json): JsonType {
    match j
    case Null => NullType
    case Bool(_) => BoolType
    case Number(_) => NumberType
    case Str(_) => StringType
    case Arr(_) => ArrayType
    case Obj(_) => ObjectType
  }

  // ------------------------------------------------------------ key order

  const ALPHABETIC: (string, string) -> bool := (a: string, b: string) => TextLess(a, b)

  lemma AlphabeticIsOrder()
    ensures StrictWeakOrder(ALPHABETIC)
    ensures forall x, y :: !ALPHABETIC(x, y) && !ALPHABETIC(y, x) ==> x == y
  {
    forall x, y
      ensures ALPHABETIC(x, y) ==> !ALPHABETIC(y, x)
      ensures !ALPHABETIC(x, y) && !ALPHABETIC(y, x) ==> x == y
    {
      TextLessTotal(x, y);
    }
    forall x, y, z
      ensures ALPHABETIC(x, y) && ALPHABETIC(y, z) ==> ALPHABETIC(x, z)
      ensures !ALPHABETIC(x, y) && !ALPHABETIC(y, z) ==> !ALPHABETIC(x, z)
    {
      TextLessTransitive(x, y, z);
      TextLessTransitive(y, x, z);
      TextLessTransitive(x, z, y);
      TextLessTotal(x, y);
      TextLessTotal(y, z);
      TextLessTotal(x, z);
    }
  }

  /** The list holds every key of the set exactly once. */
  ghost predicate Enumerates(keys: seq<string>, s: set<string>) {
    multiset(keys) == multiset(s)
  }

  lemma EnumeratedKeys(keys: seq<string>, s: set<string>)
    requires Enumerates(keys, s)
    ensures forall k :: k in keys <==> k in s
  {
    forall k
      ensures k in keys <==> k in s
    {
      assert k in keys <==> k in multiset(keys);
    }
  }

  ghost function SomeOrder(s: set<string>): (keys: seq<string>)
    ensures Enumerates(keys, s)
  {
    if s == {} then []
    else
      var k :| k in s;
      assert s == {k} + (s - {k});
      [k] + SomeOrder(s - {k})
  }

  /** The keys in ascending order. */
  ghost function SortedKeys(s: set<string>): seq<string> {
    Sort(ALPHABETIC, SomeOrder(s))
  }

  /** Sorting makes the result independent of the order in which the maps are iterated. */
  lemma SortedKeysUnique(keys: seq<string>, s: set<string>)
    requires Enumerates(keys, s)
    ensures Sort(ALPHABETIC, keys) == SortedKeys(s)
  {
    AlphabeticIsOrder();
    SortPermutes(ALPHABETIC, keys);
    SortPermutes(ALPHABETIC, SomeOrder(s));
    SortOrders(ALPHABETIC, keys);
    SortOrders(ALPHABETIC, SomeOrder(s));
    OrderedUnique(ALPHABETIC, Sort(ALPHABETIC, keys), SortedKeys(s));
  }

  lemma SortedKeysEnumerate(s: set<string>)
    ensures Enumerates(SortedKeys(s), s)
    ensures forall k :: k in SortedKeys(s) <==> k in s
  {
    SortPermutes(ALPHABETIC, SomeOrder(s));
    EnumeratedKeys(SortedKeys(s), s);
  }

  // ------------------------------------------------------------ unbounded comparison

  /** Every difference, in the order in which the comparison meets them. */
  ghost function All(l: Json, r: Json, path: Path): seq<Difference>
    decreases l, 2
  {
    match l
    case Obj(f) =>
      if !r.Obj? then [TypeDiffers(path, ObjectType, TypeOf(r))]
      else AllKeys(l, r, path, SortedKeys(f.Keys + r.fields.Keys))
    case Arr(items) =>
      if !r.Arr? then [TypeDiffers(path, ArrayType, TypeOf(r))]
      else LengthPart(l, r, path) + AllItems(l, r, path, 0)
    case _ => if l == r then [] else [ValueDiffers(path, l, r)]
  }

  function LengthPart(l: Json, r: Json, path: Path): seq<Difference>
    requires l.Arr? && r.Arr?
  {
    if |l.items| == |r.items| then [] else [LengthDiffers(path, |l.items|, |r.items|)]
  }

  ghost function AtKey(l: Json, r: Json, path: Path, key: string): seq<Difference>
    requires l.Obj? && r.Obj?
    decreases l, 0
  {
    if key in l.fields && key in r.fields then All(l.fields[key], r.fields[key], path + [Field(key)])
    else [PresenceDiffers(path, key, key in l.fields, key in r.fields)]
  }

  ghost function AllKeys(l: Json, r: Json, path: Path, keys: seq<string>): seq<Difference>
    requires l.Obj? && r.Obj?
    decreases l, 1, keys
  {
    if keys == [] then [] else AtKey(l, r, path, keys[0]) + AllKeys(l, r, path, keys[1..])
  }

  ghost function AllItems(l: Json, r: Json, path: Path, from: nat): seq<Difference>
    requires l.Arr? && r.Arr?
    decreases l, 1, |l.items| - from
  {
    if from >= Min(|l.items|, |r.items|) then []
    else All(l.items[from], r.items[from], path + [Index(from)]) + AllItems(l, r, path, from + 1)
  }

  // ------------------------------------------------------------ the budgeted comparison

  function Limited(s: seq<Difference>, limit: int): seq<Difference> {
    if limit <= 0 then [] else Take(s, limit)
  }

  /** Compares with a budget of `limit` entries: the first `limit` entries of the unbounded list. */
  method Differences(left: Json, right: Json, path: Path, limit: int) returns (result: seq<Difference>)
    ensures result == Limited(All(left, right, path), limit)
    decreases left, 0
  {
    if limit <= 0 {
      return [];
    }
    match left {
      case Obj(leftFields) =>
        if !right.Obj? {
          return [TypeDiffers(path, ObjectType, TypeOf(right))];
        }
        var unsorted := CollectKeys(leftFields, right.fields);
        var keys := Sort(ALPHABETIC, unsorted);
        SortedKeysUnique(unsorted, leftFields.Keys + right.fields.Keys);
        result := CompareKeys(left, right, path, limit, keys);
      case Arr(_) =>
        if !right.Arr? {
          return [TypeDiffers(path, ArrayType, TypeOf(right))];
        }
        result := CompareItems(left, right, path, limit);
      case _ =>
        result := if left == right then [] else [ValueDiffers(path, left, right)];
    }
  }

  lemma EnumerateNext(keys: seq<string>, seen: set<string>, more: set<string>, pending: set<string>, key: string)
    requires key in pending && pending <= more && Enumerates(keys, seen + (more - pending))
    ensures key in seen ==> Enumerates(keys, seen + (more - (pending - {key})))
    ensures key !in seen ==> Enumerates(keys + [key], seen + (more - (pending - {key})))
  {
    if key in seen {
      assert seen + (more - (pending - {key})) == seen + (more - pending);
    } else {
      assert seen + (more - (pending - {key})) == seen + (more - pending) + {key};
    }
  }

  /** Appends the keys that were not seen, in any order. */
  method AppendUnseen(before: seq<string>, seen: set<string>, more: set<string>) returns (keys: seq<string>)
    requires Enumerates(before, seen)
    ensures Enumerates(keys, seen + more)
  {
    keys := before;
    var pending := more;
    assert seen + (more - pending) == seen;
    while pending != {}
      invariant pending <= more && Enumerates(keys, seen + (more - pending))
      decreases pending
    {
      var key :| key in pending;
      EnumerateNext(keys, seen, more, pending, key);
      if key !in seen {
        keys := keys + [key];
      }
      pending := pending - {key};
    }
    assert more - pending == more;
  }

  /** The keys of both maps, each once, in some order. */
  method CollectKeys(left: map<string, Json>, right: map<string, Json>) returns (keys: seq<string>)
    ensures Enumerates(keys, left.Keys + right.Keys)
  {
    keys := AppendUnseen([], {}, left.Keys);
    assert {} + left.Keys == left.Keys;
    keys := AppendUnseen(keys, left.Keys, right.Keys);
  }

  lemma AllKeysFrom(l: Json, r: Json, path: Path, keys: seq<string>, i: nat)
    requires l.Obj? && r.Obj? && i < |keys|
    ensures AllKeys(l, r, path, keys[i..]) == AtKey(l, r, path, keys[i]) + AllKeys(l, r, path, keys[i + 1..])
  {
    assert keys[i..][1..] == keys[i + 1..];
  }

  /** The entries found so far, the next part cut to the remaining budget, and what is left. */
  lemma BudgetStep(all: seq<Difference>, done: seq<Difference>, next: seq<Difference>, rest: seq<Difference>, limit: int)
    requires |done| < limit && all == done + (next + rest)
    ensures var result := done + Limited(next, limit - |done|);
            && (|result| >= limit ==> result == Limited(all, limit))
            && (|result| < limit ==> all == result + rest)
  {
    assert all == done + next + rest;
  }

  /** The loop over the sorted keys. */
  method CompareKeys(left: Json, right: Json, path: Path, limit: int, keys: seq<string>) returns (result: seq<Difference>)
    requires limit > 0 && left.Obj? && right.Obj?
    ensures result == Limited(AllKeys(left, right, path, keys), limit)
    decreases left, 0, 0
  {
    result := [];
    ghost var all := AllKeys(left, right, path, keys);
    assert keys[0..] == keys;
    for i := 0 to |keys|
      invariant |result| < limit && all == result + AllKeys(left, right, path, keys[i..])
    {
      var key := keys[i];
      ghost var done := result;
      AllKeysFrom(left, right, path, keys, i);
      BudgetStep(all, done, AtKey(left, right, path, key), AllKeys(left, right, path, keys[i + 1..]), limit);
      if key in left.fields && key in right.fields {
        var nested := Differences(left.fields[key], right.fields[key], path + [Field(key)], limit - |result|);
        result := result + nested;
      } else {
        result := result + [PresenceDiffers(path, key, key in left.fields, key in right.fields)];
      }
      if |result| >= limit {
        return;
      }
    }
  }

  /** The length check and the loop over the common prefix. */
  method CompareItems(left: Json, right: Json, path: Path, limit: int) returns (result: seq<Difference>)
    requires limit > 0 && left.Arr? && right.Arr?
    ensures result == Limited(LengthPart(left, right, path) + AllItems(left, right, path, 0), limit)
    decreases left, 0, 0
  {
    result := [];
    if |left.items| != |right.items| {
      result := result + [LengthDiffers(path, |left.items|, |right.items|)];
      if |result| >= limit {
        return;
      }
    }
    var i := 0;
    ghost var all := LengthPart(left, right, path) + AllItems(left, right, path, 0);
    while i < Min(|left.items|, |right.items|)
      invariant 0 <= i <= Min(|left.items|, |right.items|) && |result| < limit
      invariant all == result + AllItems(left, right, path, i)
    {
      ghost var done := result;
      ghost var next, rest := All(left.items[i], right.items[i], path + [Index(i)]), AllItems(left, right, path, i + 1);
      BudgetStep(all, done, next, rest, limit);
      var nested := Differences(left.items[i], right.items[i], path + [Index(i)], limit - |result|);
      result := result + nested;
      if |result| >= limit {
        return;
      }
      i := i + 1;
    }
  }

  // ------------------------------------------------------------ what the entries mean

  /** The entry describes a mismatch between these two values themselves. */
  predicate Here(l: Json, r: Json, d: Difference) {
    match d
    case TypeDiffers(_, legacy, go) => ((l.Obj? && !r.Obj?) || (l.Arr? && !r.Arr?)) && legacy == TypeOf(l) && go == TypeOf(r)
    case PresenceDiffers(_, key, inLegacy, inGo) =>
      l.Obj? && r.Obj? && inLegacy == (key in l.fields) && inGo == (key in r.fields) && inLegacy != inGo
    case LengthDiffers(_, m, n) => l.Arr? && r.Arr? && m == |l.items| && n == |r.items| && m != n
    case ValueDiffers(_, x, y) => !l.Obj? && !l.Arr? && x == l && y == r && l != r
  }

  /** Following `suffix` in both documents leads to two values with that mismatch. */
  predicate Locates(l: Json, r: Json, suffix: Path, d: Difference)
    decreases suffix
  {
    if suffix == [] then Here(l, r, d)
    else
      match suffix[0]
      case Field(key) =>
        && l.Obj? && r.Obj? && key in l.fields && key in r.fields
        && Locates(l.fields[key], r.fields[key], suffix[1..], d)
      case Index(i) =>
        && l.Arr? && r.Arr? && i < |l.items| && i < |r.items|
        && Locates(l.items[i], r.items[i], suffix[1..], d)
  }

  /** The entry's path extends `path`, and what follows locates its mismatch. */
  predicate Describes(l: Json, r: Json, path: Path, d: Difference) {
    path <= d.path && Locates(l, r, d.path[|path|..], d)
  }

  /** The entry lies below, or at, key k of two objects. */
  ghost predicate UnderKey(l: Json, r: Json, path: Path, k: string, d: Difference)
    requires l.Obj? && r.Obj?
  {
    if k in l.fields && k in r.fields then Describes(l.fields[k], r.fields[k], path + [Field(k)], d)
    else d == PresenceDiffers(path, k, k in l.fields, k in r.fields)
  }

  /** The entry lies below position i of two arrays. */
  ghost predicate UnderIndex(l: Json, r: Json, path: Path, i: nat, d: Difference)
    requires l.Arr? && r.Arr?
  {
    i < Min(|l.items|, |r.items|) && Describes(l.items[i], r.items[i], path + [Index(i)], d)
  }

  lemma SuffixAfter(path: Path, d: Difference)
    requires path <= d.path
    ensures d.path[|path|..] == [] <==> d.path == path
    ensures d.path != path ==> path + [d.path[|path|]] <= d.path && d.path[|path|..][1..] == d.path[|path| + 1..]
  {
  }

  lemma DescribesStep(l: Json, r: Json, path: Path, step: Step, l': Json, r': Json, d: Difference)
    requires step.Field? ==> l.Obj? && r.Obj? && step.key in l.fields && step.key in r.fields
                             && l' == l.fields[step.key] && r' == r.fields[step.key]
    requires step.Index? ==> l.Arr? && r.Arr? && step.index < |l.items| && step.index < |r.items|
                             && l' == l.items[step.index] && r' == r.items[step.index]
    ensures Describes(l', r', path + [step], d) <==>
            path <= d.path && d.path != path && d.path[|path|] == step && Describes(l, r, path, d)
  {
    if path <= d.path {
      SuffixAfter(path, d);
    }
  }

  lemma DescribesAtObject(l: Json, r: Json, path: Path, d: Difference)
    requires l.Obj? && r.Obj?
    ensures Describes(l, r, path, d) <==> exists k :: (k in l.fields || k in r.fields) && UnderKey(l, r, path, k, d)
  {
    forall k | k in l.fields && k in r.fields
      ensures UnderKey(l, r, path, k, d) <==>
              path <= d.path && d.path != path && d.path[|path|] == Field(k) && Describes(l, r, path, d)
    {
      DescribesStep(l, r, path, Field(k), l.fields[k], r.fields[k], d);
    }
    if Describes(l, r, path, d) {
      SuffixAfter(path, d);
      if d.path == path {
        assert UnderKey(l, r, path, d.key, d);
      } else {
        assert UnderKey(l, r, path, d.path[|path|].key, d);
      }
    }
  }

  lemma DescribesAtArray(l: Json, r: Json, path: Path, d: Difference)
    requires l.Arr? && r.Arr?
    ensures Describes(l, r, path, d) <==> d in LengthPart(l, r, path) || exists i :: UnderIndex(l, r, path, i, d)
  {
    forall i: nat | i < Min(|l.items|, |r.items|)
      ensures UnderIndex(l, r, path, i, d) <==>
              path <= d.path && d.path != path && d.path[|path|] == Index(i) && Describes(l, r, path, d)
    {
      DescribesStep(l, r, path, Index(i), l.items[i], r.items[i], d);
    }
    if Describes(l, r, path, d) {
      SuffixAfter(path, d);
      if d.path != path {
        assert UnderIndex(l, r, path, d.path[|path|].index, d);
      }
    }
  }

  lemma DescribesAtLeaf(l: Json, r: Json, path: Path, d: Difference)
    requires !(l.Obj? && r.Obj?) && !(l.Arr? && r.Arr?)
    ensures d in All(l, r, path) <==> Describes(l, r, path, d)
  {
    if path <= d.path {
      SuffixAfter(path, d);
    }
  }

  /** Exactly the true mismatches are listed: an entry is in the unbounded list if and only if
      its path leads, in both documents, to two values that differ as it says. */
  lemma {:induction false} AllMeansDescribes(l: Json, r: Json, path: Path, d: Difference)
    ensures d in All(l, r, path) <==> Describes(l, r, path, d)
    decreases l, 2
  {
    if l.Obj? && r.Obj? {
      SortedKeysEnumerate(l.fields.Keys + r.fields.Keys);
      AllKeysMeans(l, r, path, SortedKeys(l.fields.Keys + r.fields.Keys), d);
      DescribesAtObject(l, r, path, d);
    } else if l.Arr? && r.Arr? {
      AllItemsMeans(l, r, path, 0, d);
      DescribesAtArray(l, r, path, d);
    } else {
      DescribesAtLeaf(l, r, path, d);
    }
  }

  lemma {:induction false} AllKeysMeans(l: Json, r: Json, path: Path, keys: seq<string>, d: Difference)
    requires l.Obj? && r.Obj?
    ensures d in AllKeys(l, r, path, keys) <==> exists k :: k in keys && UnderKey(l, r, path, k, d)
    decreases l, 1, keys
  {
    if keys != [] {
      AtKeyMeans(l, r, path, keys[0], d);
      AllKeysMeans(l, r, path, keys[1..], d);
      assert forall k :: k in keys <==> k == keys[0] || k in keys[1..];
    }
  }

  lemma {:induction false} AtKeyMeans(l: Json, r: Json, path: Path, k: string, d: Difference)
    requires l.Obj? && r.Obj?
    ensures d in AtKey(l, r, path, k) <==> UnderKey(l, r, path, k, d)
    decreases l, 0
  {
    if k in l.fields && k in r.fields {
      AllMeansDescribes(l.fields[k], r.fields[k], path + [Field(k)], d);
    }
  }

  lemma {:induction false} AllItemsMeans(l: Json, r: Json, path: Path, from: nat, d: Difference)
    requires l.Arr? && r.Arr?
    ensures d in AllItems(l, r, path, from) <==> exists i :: from <= i && UnderIndex(l, r, path, i, d)
    decreases l, 1, |l.items| - from
  {
    if from < Min(|l.items|, |r.items|) {
      AllMeansDescribes(l.items[from], r.items[from], path + [Index(from)], d);
      AllItemsMeans(l, r, path, from + 1, d);
      assert UnderIndex(l, r, path, from, d) <==> d in All(l.items[from], r.items[from], path + [Index(from)]);
    }
  }

  // ------------------------------------------------------------ empty exactly when equal

  /** The comparison is silent exactly on equal documents, with any positive budget. */
  lemma SilentIffEqual(l: Json, r: Json, path: Path, limit: int)
    requires limit >= 1
    ensures Limited(All(l, r, path), limit) == [] <==> l == r
  {
    AllEmptyIffEqual(l, r, path);
  }

  lemma {:induction false} AllEmptyIffEqual(l: Json, r: Json, path: Path)
    ensures All(l, r, path) == [] <==> l == r
    decreases l, 2
  {
    if l.Obj? && r.Obj? {
      var keys := SortedKeys(l.fields.Keys + r.fields.Keys);
      SortedKeysEnumerate(l.fields.Keys + r.fields.Keys);
      KeysEmptyIffEqual(l, r, path, keys);
      SameFields(l, r, keys);
    } else if l.Arr? && r.Arr? {
      ItemsEmptyIffEqual(l, r, path, 0);
      assert |l.items| == |r.items| ==>
          (l.items == r.items <==> forall i :: 0 <= i < |l.items| ==> l.items[i] == r.items[i]);
    }
  }

  predicate SameAt(l: Json, r: Json, k: string)
    requires l.Obj? && r.Obj?
  {
    k in l.fields && k in r.fields && l.fields[k] == r.fields[k]
  }

  lemma SameFields(l: Json, r: Json, keys: seq<string>)
    requires l.Obj? && r.Obj? && forall k :: k in keys <==> k in l.fields.Keys + r.fields.Keys
    ensures l == r <==> forall k :: k in keys ==> SameAt(l, r, k)
  {
    if forall k :: k in keys ==> SameAt(l, r, k) {
      assert forall k :: k in l.fields || k in r.fields ==> k in keys && SameAt(l, r, k);
      assert l.fields == r.fields;
    }
  }

  lemma {:induction false} KeysEmptyIffEqual(l: Json, r: Json, path: Path, keys: seq<string>)
    requires l.Obj? && r.Obj?
    ensures AllKeys(l, r, path, keys) == [] <==> forall k :: k in keys ==> SameAt(l, r, k)
    decreases l, 1, keys
  {
    if keys != [] {
      var k := keys[0];
      if k in l.fields && k in r.fields {
        AllEmptyIffEqual(l.fields[k], r.fields[k], path + [Field(k)]);
      }
      assert AtKey(l, r, path, k) == [] <==> SameAt(l, r, k);
      KeysEmptyIffEqual(l, r, path, keys[1..]);
      assert forall x :: x in keys <==> x == k || x in keys[1..];
    }
  }

  lemma {:induction false} ItemsEmptyIffEqual(l: Json, r: Json, path: Path, from: nat)
    requires l.Arr? && r.Arr?
    ensures AllItems(l, r, path, from) == [] <==>
            forall i :: from <= i < Min(|l.items|, |r.items|) ==> l.items[i] == r.items[i]
    decreases l, 1, |l.items| - from
  {
    if from < Min(|l.items|, |r.items|) {
      AllEmptyIffEqual(l.items[from], r.items[from], path + [Index(from)]);
      ItemsEmptyIffEqual(l, r, path, from + 1);
    }
  }

  // ------------------------------------------------------------ every mismatch once

  lemma UnderOneKey(l: Json, r: Json, path: Path, j: string, k: string, d: Difference)
    requires l.Obj? && r.Obj? && UnderKey(l, r, path, j, d) && UnderKey(l, r, path, k, d)
    ensures j == k
  {
    if path + [Field(j)] <= d.path && path + [Field(k)] <= d.path {
      assert d.path[|path|] == (path + [Field(j)])[|path|] == (path + [Field(k)])[|path|];
    }
    assert |path + [Field(j)]| == |path| + 1 == |path + [Field(k)]|;
  }

  lemma UnderOneIndex(l: Json, r: Json, path: Path, i: nat, j: nat, d: Difference)
    requires l.Arr? && r.Arr? && UnderIndex(l, r, path, i, d) && UnderIndex(l, r, path, j, d)
    ensures i == j && d !in LengthPart(l, r, path)
  {
    assert d.path[|path|] == (path + [Index(i)])[|path|] == (path + [Index(j)])[|path|];
  }

  /** No mismatch is listed twice. */
  lemma {:induction false} AllDistinct(l: Json, r: Json, path: Path, d: Difference)
    ensures multiset(All(l, r, path))[d] <= 1
    decreases l, 2
  {
    if l.Obj? && r.Obj? {
      SortedKeysEnumerate(l.fields.Keys + r.fields.Keys);
      AllKeysDistinct(l, r, path, SortedKeys(l.fields.Keys + r.fields.Keys), d);
    } else if l.Arr? && r.Arr? {
      AllItemsDistinct(l, r, path, 0, d);
      AllItemsMeans(l, r, path, 0, d);
      if d in AllItems(l, r, path, 0) {
        var i: nat :| UnderIndex(l, r, path, i, d);
        UnderOneIndex(l, r, path, i, i, d);
      }
      OncePerPart(LengthPart(l, r, path), AllItems(l, r, path, 0), d);
    }
  }

  lemma NotAgain(keys: seq<string>)
    requires keys != [] && forall k :: multiset(keys)[k] <= 1
    ensures keys[0] !in keys[1..] && forall k :: multiset(keys[1..])[k] <= 1
  {
    assert keys == [keys[0]] + keys[1..];
    assert forall k :: multiset(keys[1..])[k] <= multiset(keys)[k];
    assert multiset(keys)[keys[0]] == 1 + multiset(keys[1..])[keys[0]];
  }

  lemma OncePerPart(a: seq<Difference>, b: seq<Difference>, d: Difference)
    requires multiset(a)[d] <= 1 && multiset(b)[d] <= 1 && !(d in a && d in b)
    ensures multiset(a + b)[d] <= 1
  {
    assert d in a <==> d in multiset(a);
    assert d in b <==> d in multiset(b);
  }

  lemma {:induction false} AllKeysDistinct(l: Json, r: Json, path: Path, keys: seq<string>, d: Difference)
    requires l.Obj? && r.Obj? && forall k :: multiset(keys)[k] <= 1
    ensures multiset(AllKeys(l, r, path, keys))[d] <= 1
    decreases l, 1, keys
  {
    if keys != [] {
      var k, rest := keys[0], keys[1..];
      NotAgain(keys);
      AtKeyDistinct(l, r, path, k, d);
      AllKeysDistinct(l, r, path, rest, d);
      AtKeyMeans(l, r, path, k, d);
      AllKeysMeans(l, r, path, rest, d);
      if d in AtKey(l, r, path, k) && d in AllKeys(l, r, path, rest) {
        var x :| x in rest && UnderKey(l, r, path, x, d);
        UnderOneKey(l, r, path, k, x, d);
      }
      OncePerPart(AtKey(l, r, path, k), AllKeys(l, r, path, rest), d);
    }
  }

  lemma {:induction false} AtKeyDistinct(l: Json, r: Json, path: Path, k: string, d: Difference)
    requires l.Obj? && r.Obj?
    ensures multiset(AtKey(l, r, path, k))[d] <= 1
    decreases l, 0
  {
    if k in l.fields && k in r.fields {
      AllDistinct(l.fields[k], r.fields[k], path + [Field(k)], d);
    }
  }

  lemma {:induction false} AllItemsDistinct(l: Json, r: Json, path: Path, from: nat, d: Difference)
    requires l.Arr? && r.Arr?
    ensures multiset(AllItems(l, r, path, from))[d] <= 1
    decreases l, 1, |l.items| - from
  {
    if from < Min(|l.items|, |r.items|) {
      AllDistinct(l.items[from], r.items[from], path + [Index(from)], d);
      AllItemsDistinct(l, r, path, from + 1, d);
      AllMeansDescribes(l.items[from], r.items[from], path + [Index(from)], d);
      AllItemsMeans(l, r, path, from + 1, d);
      var first, rest := All(l.items[from], r.items[from], path + [Index(from)]), AllItems(l, r, path, from + 1);
      if d in first && d in rest {
        var i: nat :| from + 1 <= i && UnderIndex(l, r, path, i, d);
        UnderOneIndex(l, r, path, from, i, d);
      }
      OncePerPart(first, rest, d);
    }
  }

  // ------------------------------------------------------------ canonical documents

  const ALWAYS_VOLATILE := {"generated_at", "server_time", "queue_duration_ms", "execution_duration_ms",
                            "average_queue_duration_ms", "average_execution_duration_ms", "longest_wait_ms",
                            "estimated_clear_ms", "throughput_per_hour"}

  function Volatile(path: string): set<string> {
    if path == "/api/v1/portfolio" then ALWAYS_VOLATILE + {"as_of"} else ALWAYS_VOLATILE
  }

  /** Clocks and durations are volatile everywhere; the portfolio's `as_of` only there. */
  lemma VolatileMeans(path: string, key: string)
    ensures key in Volatile(path) <==> key in ALWAYS_VOLATILE || (path == "/api/v1/portfolio" && key == "as_of")
  {
  }

  /** The document without its volatile fields, at every depth. */
  function Canonical(drop: set<string>, j: Json): Json {
    match j
    case Obj(fields) => Obj(map k | k in fields && k !in drop :: Canonical(drop, fields[k]))
    case Arr(items) => Arr(seq(|items|, i requires 0 <= i < |items| => Canonical(drop, items[i])))
    case _ => j
  }

  /** Deletes the volatile keys of every object and recurses into everything else. */
  method Canonicalize(path: string, value: Json) returns (result: Json)
    ensures result == Canonical(Volatile(path), value)
    decreases value
  {
    var drop := Volatile(path);
    match value {
      case Obj(fields) =>
        var typed := fields;
        var pending := fields.Keys;
        while pending != {}
          invariant pending <= fields.Keys
          invariant typed.Keys == fields.Keys - (drop - pending)
          invariant forall k :: k in pending ==> typed[k] == fields[k]
          invariant forall k :: k in typed && k !in pending ==> typed[k] == Canonical(drop, fields[k])
          decreases pending
        {
          var key :| key in pending;
          pending := pending - {key};
          if key in drop {
            typed := typed - {key};
          } else {
            var item := Canonicalize(path, fields[key]);
            typed := typed[key := item];
          }
        }
        result := Obj(typed);
      case Arr(items) =>
        var typed: seq<Json> := [];
        for i := 0 to |items|
          invariant |typed| == i && forall j :: 0 <= j < i ==> typed[j] == Canonical(drop, items[j])
        {
          var item := Canonicalize(path, items[i]);
          typed := typed + [item];
        }
        result := Arr(typed);
      case _ => result := value;
    }
  }

  /** Equal up to volatile fields: the reference meaning of "same contract". */
  ghost predicate SameUpTo(drop: set<string>, l: Json, r: Json)
    decreases l
  {
    match l
    case Obj(f) =>
      && r.Obj?
      && f.Keys - drop == r.fields.Keys - drop
      && (forall k :: k in f && k in r.fields && k !in drop ==> SameUpTo(drop, f[k], r.fields[k]))
    case Arr(items) =>
      && r.Arr? && |items| == |r.items|
      && (forall i :: 0 <= i < |items| ==> SameUpTo(drop, items[i], r.items[i]))
    case _ => l == r
  }

  lemma {:induction false} CanonicalEqual(drop: set<string>, l: Json, r: Json)
    ensures Canonical(drop, l) == Canonical(drop, r) <==> SameUpTo(drop, l, r)
    decreases l
  {
    var cl, cr := Canonical(drop, l), Canonical(drop, r);
    if l.Obj? && r.Obj? {
      forall k | k in l.fields && k in r.fields && k !in drop
        ensures cl.fields[k] == cr.fields[k] <==> SameUpTo(drop, l.fields[k], r.fields[k])
      {
        CanonicalEqual(drop, l.fields[k], r.fields[k]);
      }
      assert cl.fields.Keys == l.fields.Keys - drop && cr.fields.Keys == r.fields.Keys - drop;
      if SameUpTo(drop, l, r) {
        assert cl.fields == cr.fields;
      }
    } else if l.Arr? && r.Arr? {
      assert |cl.items| == |l.items| && |cr.items| == |r.items|;
      forall i | 0 <= i < |l.items| && i < |r.items|
        ensures cl.items[i] == cr.items[i] <==> SameUpTo(drop, l.items[i], r.items[i])
      {
        CanonicalEqual(drop, l.items[i], r.items[i]);
      }
      if SameUpTo(drop, l, r) {
        assert cl.items == cr.items;
      }
    }
  }

  /** Two responses canonicalise to the same document, and so compare without differences,
      exactly when they agree outside the volatile fields of the endpoint. */
  lemma ContractHolds(endpoint: string, l: Json, r: Json, path: Path, limit: int)
    requires limit >= 1
    ensures Limited(All(Canonical(Volatile(endpoint), l), Canonical(Volatile(endpoint), r), path), limit) == []
            <==> SameUpTo(Volatile(endpoint), l, r)
  {
    SilentIffEqual(Canonical(Volatile(endpoint), l), Canonical(Volatile(endpoint), r), path, limit);
    CanonicalEqual(Volatile(endpoint), l, r);
  }

  lemma {:induction false} CanonicalIdempotent(drop: set<string>, j: Json)
    ensures Canonical(drop, Canonical(drop, j)) == Canonical(drop, j)
  {
    if j.Obj? {
      forall k | k in j.fields && k !in drop
        ensures Canonical(drop, Canonical(drop, j.fields[k])) == Canonical(drop, j.fields[k])
      {
        CanonicalIdempotent(drop, j.fields[k]);
      }
    } else if j.Arr? {
      forall i | 0 <= i < |j.items|
        ensures Canonical(drop, Canonical(drop, j.items[i])) == Canonical(drop, j.items[i])
      {
        CanonicalIdempotent(drop, j.items[i]);
      }
    }
  }

  // ------------------------------------------------------------ first differing byte

  /** Where two byte texts part, with up to 60 bytes before and 100 from there on. */
  method FirstByteDifference(left: seq<bv8>, right: seq<bv8>) returns (index: nat, legacy: seq<bv8>, go: seq<bv8>)
    ensures index <= |left| && index <= |right| && left[..index] == right[..index]
    ensures index < |left| && index < |right| ==> left[index] != right[index]
    ensures left != right && |left| == |right| ==> index < |left|
    ensures legacy == left[Max(0, index - 60)..Min(|left|, index + 100)]
    ensures go == right[Max(0, index - 60)..Min(|right|, index + 100)]
  {
    index := 0;
    while index < Min(|left|, |right|) && left[index] == right[index]
      invariant index <= |left| && index <= |right| && left[..index] == right[..index]
    {
      index := index + 1;
    }
    var start := Max(0, index - 60);
    legacy := left[start..Min(|left|, index + 100)];
    go := right[start..Min(|right|, index + 100)];
    assert left[..|left|] == left && right[..|right|] == right;
  }
}
