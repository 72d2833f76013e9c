/** Tag parsing as the generic sink relies on it.

    The sink turns each sample's flat list of "key:value" strings into a map
    by calling the samplers package's ParseTagSliceToMap, whose source is not
    part of this model. What is stated here is the behaviour the sink
    assumes of it: each string is split at its FIRST ':' (a string without
    one is a key with the empty value), and the strings are applied in
    order, so a later key overwrites an earlier one. */
module Tags {

  /** One tag string split into its key and its value. */
  datatype TagPair = TagPair(key: string, value: string)

  /** Splits a tag at its first ':'; without a ':' the whole tag is the key. */
  function SplitFirstColon(tag: string): TagPair
  {
    if |tag| == 0 then TagPair("", "")
    else if tag[0] == ':' then TagPair("", tag[1..])
    else
      var rest := SplitFirstColon(tag[1..]);
      TagPair([tag[0]] + rest.key, rest.value)
  }

  /** The key holds no ':'; with a ':' in the tag, key, ':' and value give
      the tag back; without one, the key is the whole tag and the value is
      empty. */
  lemma {:induction false} SplitFirstColonSpec(tag: string)
    ensures ':' !in SplitFirstColon(tag).key
    ensures ':' in tag ==> tag == SplitFirstColon(tag).key + ":" + SplitFirstColon(tag).value
    ensures ':' !in tag ==> SplitFirstColon(tag) == TagPair(tag, "")
  {
    if |tag| > 0 {
      var rest := tag[1..];
      assert tag == [tag[0]] + rest;
      if tag[0] == ':' {
        assert tag == "" + ":" + rest;
      } else {
        SplitFirstColonSpec(rest);
        var r := SplitFirstColon(rest);
        assert SplitFirstColon(tag) == TagPair([tag[0]] + r.key, r.value);
        assert ':' in tag <==> ':' in rest;
        if ':' in rest {
          assert tag == [tag[0]] + (r.key + ":" + r.value);
        }
      }
    }
  }

  /** Joining a colon-free key and any value with ':' and splitting again
      gives back the key and the value: the key ends at the first ':'. */
  lemma {:induction false} SplitJoin(key: string, value: string)
    requires ':' !in key
    ensures SplitFirstColon(key + ":" + value) == TagPair(key, value)
  {
    var tag := key + ":" + value;
    if |key| == 0 {
      assert tag == [':'] + value;
      assert tag[1..] == value;
    } else {
      assert tag[0] == key[0];
      assert tag[1..] == key[1..] + ":" + value;
      SplitJoin(key[1..], value);
      assert [key[0]] + key[1..] == key;
    }
  }

  /** The map built from a tag list: a left fold over the list that stores
      each tag's key and value, a later entry overwriting an earlier one. */
  function ParseTagSliceToMap(tags: seq<string>): map<string, string>
  {
    if tags == [] then map[]
    else
      var p := SplitFirstColon(tags[|tags| - 1]);
      ParseTagSliceToMap(tags[..|tags| - 1])[p.key := p.value]
  }

  /** The key of a tag string. */
  function KeyOf(tag: string): string
  {
    SplitFirstColon(tag).key
  }

  /** A key is in the map exactly when some tag string has that key. */
  lemma {:induction false} ParseKeys(tags: seq<string>, k: string)
    ensures k in ParseTagSliceToMap(tags) <==> exists i :: 0 <= i < |tags| && KeyOf(tags[i]) == k
  {
    if tags != [] {
      var init := tags[..|tags| - 1];
      ParseKeys(init, k);
      if k in ParseTagSliceToMap(init) {
        var i :| 0 <= i < |init| && KeyOf(init[i]) == k;
        assert tags[i] == init[i];
      }
      if exists i :: 0 <= i < |tags| && KeyOf(tags[i]) == k {
        var i :| 0 <= i < |tags| && KeyOf(tags[i]) == k;
        if i < |init| { assert init[i] == tags[i]; }
      }
    }
  }

  /** The value stored for a key is the value of the LAST tag with that key. */
  lemma {:induction false} ParseLastWins(tags: seq<string>, i: nat)
    requires i < |tags|
    requires forall j :: i < j < |tags| ==> KeyOf(tags[j]) != KeyOf(tags[i])
    ensures KeyOf(tags[i]) in ParseTagSliceToMap(tags)
    ensures ParseTagSliceToMap(tags)[KeyOf(tags[i])] == SplitFirstColon(tags[i]).value
  {
    var init := tags[..|tags| - 1];
    if i < |tags| - 1 {
      forall j | i < j < |init| ensures KeyOf(init[j]) != KeyOf(init[i]) {
        assert init[j] == tags[j];
      }
      ParseLastWins(init, i);
      assert init[i] == tags[i];
    }
  }

  /** Parsing a concatenation is parsing each part, the second part winning
      on a shared key. */
  lemma {:induction false} ParseAppend(a: seq<string>, b: seq<string>)
    ensures ParseTagSliceToMap(a + b) == ParseTagSliceToMap(a) + ParseTagSliceToMap(b)
  {
    if b == [] {
      assert a + b == a;
    } else {
      var b' := b[..|b| - 1];
      var p := SplitFirstColon(b[|b| - 1]);
      ParseAppend(a, b');
      assert (a + b)[..|a + b| - 1] == a + b';
      assert (a + b)[|a + b| - 1] == b[|b| - 1];
      MapUnionUpdate(ParseTagSliceToMap(a), ParseTagSliceToMap(b'), p.key, p.value);
    }
  }

  lemma MapUnionUpdate<K, V>(m: map<K, V>, n: map<K, V>, k: K, v: V)
    ensures (m + n)[k := v] == m + n[k := v]
  {
  }
}
