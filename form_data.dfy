/** Turning a submitted FormData into the candidate object that is validated
    (src/server/handleAction.ts, lines 48-62 and 68-82). */
module FormData {
  import opened Values

  /** The key of every entry in insertion order: what `form.keys()` iterates over. */
  function KeysOf(form: seq<Field>): seq<string> {
    seq(|form|, i requires 0 <= i < |form| => form[i].key)
  }

  /** The position of the first occurrence of `k`. */
  function FirstIndex(keys: seq<string>, k: string): (i: nat)
    requires k in keys
    ensures i < |keys| && keys[i] == k
    ensures forall j :: 0 <= j < i ==> keys[j] != k
  {
    if keys[0] == k then 0 else 1 + FirstIndex(keys[1..], k)
  }

  lemma {:induction false} FirstIndexOfPrefix(keys: seq<string>, n: nat, k: string)
    requires n <= |keys| && k in keys[..n]
    ensures k in keys && FirstIndex(keys[..n], k) == FirstIndex(keys, k)
  {
    var a := FirstIndex(keys[..n], k);
    assert keys[a] == k;
  }

  /** The keys with repeats dropped, each kept where it first occurs: what
      the loop over `form.keys()` leaves in `keys`. */
  function Dedup(keys: seq<string>): seq<string> {
    if keys == [] then []
    else
      var seen := Dedup(keys[..|keys| - 1]);
      var last := keys[|keys| - 1];
      if last in seen then seen else seen + [last]
  }

  lemma {:induction false} DedupMembers(keys: seq<string>)
    ensures forall k :: k in Dedup(keys) <==> k in keys
  {
    if keys != [] {
      DedupMembers(keys[..|keys| - 1]);
      assert keys == keys[..|keys| - 1] + [keys[|keys| - 1]];
    }
  }

  lemma {:induction false} DedupDistinct(keys: seq<string>)
    ensures forall i, j :: 0 <= i < j < |Dedup(keys)| ==> Dedup(keys)[i] != Dedup(keys)[j]
  {
    if keys != [] {
      DedupDistinct(keys[..|keys| - 1]);
    }
  }

  lemma {:induction false} DedupFirstAppearance(keys: seq<string>)
    ensures forall k :: k in Dedup(keys) ==> k in keys
    ensures forall i, j :: 0 <= i < j < |Dedup(keys)| ==>
      FirstIndex(keys, Dedup(keys)[i]) < FirstIndex(keys, Dedup(keys)[j])
  {
    DedupMembers(keys);
    if keys != [] {
      var n := |keys| - 1;
      var init, last := keys[..n], keys[n];
      var seen := Dedup(init);
      DedupFirstAppearance(init);
      forall k | k in seen
        ensures FirstIndex(keys, k) == FirstIndex(init, k) < n
      {
        FirstIndexOfPrefix(keys, n, k);
      }
      if last !in seen {
        DedupMembers(init);
        forall i, j | 0 <= i < j < |Dedup(keys)|
          ensures FirstIndex(keys, Dedup(keys)[i]) < FirstIndex(keys, Dedup(keys)[j])
        {
          assert Dedup(keys) == seen + [last];
          if j == |seen| {
            assert Dedup(keys)[i] == seen[i];
          }
        }
      }
    }
  }

  /** `form.getAll(key)`: the values entered under `key`, in insertion order. */
  function GetAll(form: seq<Field>, key: string): seq<Value> {
    if form == [] then []
    else (if form[0].key == key then [form[0].value] else []) + GetAll(form[1..], key)
  }

  /** `form.get(key)`: the first value entered under `key`, or null. */
  function Get(form: seq<Field>, key: string): Value {
    if form == [] then Null
    else if form[0].key == key then form[0].value
    else Get(form[1..], key)
  }

  lemma {:induction false} GetAllCountsEntries(form: seq<Field>, key: string)
    ensures |GetAll(form, key)| == multiset(KeysOf(form))[key]
  {
    if form != [] {
      GetAllCountsEntries(form[1..], key);
      assert KeysOf(form) == [form[0].key] + KeysOf(form[1..]);
    }
  }

  lemma {:induction false} GetIsFirstEntry(form: seq<Field>, key: string)
    requires key in KeysOf(form)
    ensures GetAll(form, key) != [] && Get(form, key) == GetAll(form, key)[0]
    ensures Get(form, key) == form[FirstIndex(KeysOf(form), key)].value
  {
    assert KeysOf(form)[1..] == KeysOf(form[1..]);
    if form[0].key != key {
      GetIsFirstEntry(form[1..], key);
    }
  }

  /** The value the flattened object holds for `key`: all of its values when
      it was entered more than once, otherwise the one value. */
  function FieldFor(form: seq<Field>, key: string): Value {
    var all := GetAll(form, key);
    if |all| > 1 then Arr(all) else Get(form, key)
  }

  /** `Object.fromEntries(keys.map(...))`: one field per distinct key. */
  function Flatten(form: seq<Field>): seq<Field> {
    var keys := Dedup(KeysOf(form));
    seq(|keys|, i requires 0 <= i < |keys| => Field(keys[i], FieldFor(form, keys[i])))
  }

  /** The flattened object holds every key of the form, each exactly once,
      in the order the keys were first entered. */
  lemma FlattenKeysOnceInOrder(form: seq<Field>)
    ensures forall k :: k in KeysOf(Flatten(form)) <==> k in KeysOf(form)
    ensures forall i, j :: 0 <= i < j < |Flatten(form)| ==> Flatten(form)[i].key != Flatten(form)[j].key
    ensures forall i :: 0 <= i < |Flatten(form)| ==> Flatten(form)[i].key in KeysOf(form)
    ensures forall i, j :: 0 <= i < j < |Flatten(form)| ==>
      FirstIndex(KeysOf(form), Flatten(form)[i].key) < FirstIndex(KeysOf(form), Flatten(form)[j].key)
  {
    var keys := KeysOf(form);
    assert KeysOf(Flatten(form)) == Dedup(keys);
    DedupMembers(keys);
    DedupDistinct(keys);
    DedupFirstAppearance(keys);
  }

  /** A key entered once maps to its value; a key entered n > 1 times maps to
      the list of its n values in insertion order. */
  lemma FlattenValues(form: seq<Field>, i: nat)
    requires i < |Flatten(form)|
    ensures var f := Flatten(form)[i];
      var n := multiset(KeysOf(form))[f.key];
      && f.key in KeysOf(form)
      && n >= 1
      && (n == 1 ==> f.value == form[FirstIndex(KeysOf(form), f.key)].value)
      && (n > 1 ==> f.value == Arr(GetAll(form, f.key)) && |GetAll(form, f.key)| == n)
  {
    var key := Flatten(form)[i].key;
    FlattenKeysOnceInOrder(form);
    GetAllCountsEntries(form, key);
    GetIsFirstEntry(form, key);
  }

  /** The loop at lines 49-53 (and 69-73) collecting the keys, then the
      per-key mapping of lines 55-62. */
  method FlattenForm(form: seq<Field>) returns (values: seq<Field>)
    ensures values == Flatten(form)
  {
    var keys: seq<string> := [];
    for i := 0 to |form|
      invariant keys == Dedup(KeysOf(form[..i]))
    {
      assert KeysOf(form[..i + 1])[..i] == KeysOf(form[..i]);
      if form[i].key !in keys {
        keys := keys + [form[i].key];
      }
    }
    assert form[..|form|] == form;
    values := seq(|keys|, j requires 0 <= j < |keys| => Field(keys[j], FieldFor(form, keys[j])));
  }
}
