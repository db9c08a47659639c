/**
 * The part of Jackson's tree model the service uses: a JSON value as a
 * datatype, an object as its ordered list of fields (Jackson's ObjectNode
 * keeps insertion order), and the mutable ObjectNode with `putArray`.
 */
module Json {
  import opened Wrappers

  datatype Json =
    | JNull
    | JBool(b: bool)
    | JInt(n: int)
    | JString(s: string)
    | JArray(items: seq<Json>)
    | JObject(fields: seq<(string, Json)>)

  type Fields = seq<(string, Json)>

  /** `ObjectNode.get(key)`: the value of the first field named `key`, if any. */
  function Lookup(fields: Fields, key: string): (r: Option<Json>)
    ensures r.None? <==> forall k :: 0 <= k < |fields| ==> fields[k].0 != key
    ensures r.Some? ==> exists k :: 0 <= k < |fields| && fields[k] == (key, r.value)
  {
    if |fields| == 0 then None
    else if fields[0].0 == key then Some(fields[0].1)
    else
      var r := Lookup(fields[1..], key);
      assert forall k :: 1 <= k < |fields| ==> fields[k] == fields[1..][k - 1];
      r
  }

  /** The value found is the one of the first field with the key. */
  lemma {:induction false} LookupFirst(fields: Fields, key: string, k: nat)
    requires k < |fields| && fields[k].0 == key
    requires forall j :: 0 <= j < k ==> fields[j].0 != key
    ensures Lookup(fields, key) == Some(fields[k].1)
  {
    if k > 0 {
      assert forall j :: 0 <= j < k - 1 ==> fields[1..][j] == fields[j + 1];
      LookupFirst(fields[1..], key, k - 1);
    }
  }

  /** `ObjectNode.has(key)`: the key is present, possibly with a JSON null. */
  predicate Has(fields: Fields, key: string)
    ensures Has(fields, key) <==> exists k :: 0 <= k < |fields| && fields[k].0 == key
  {
    Lookup(fields, key).Some?
  }

  /** `JsonNode.hasNonNull(key)`: present and not a JSON null. */
  predicate HasNonNull(fields: Fields, key: string)
  {
    Lookup(fields, key).Some? && Lookup(fields, key).value != JNull
  }

  /**
   * `JsonNode.size()`: elements of an array, fields of an object, and 0 for
   * every scalar (so a string or a number counts as "empty").
   */
  function Size(j: Json): (n: nat)
    ensures n > 0 ==> j.JArray? || j.JObject?
    ensures j.JArray? ==> n == |j.items|
    ensures j.JObject? ==> n == |j.fields|
  {
    match j
    case JArray(items) => |items|
    case JObject(fields) => |fields|
    case _ => 0
  }

  /** `JsonNode.isEmpty()`, which Jackson defines as `size() == 0`. */
  predicate IsEmpty(j: Json)
  {
    Size(j) == 0
  }

  /** A non-empty container: an array or object with at least one entry. */
  predicate IsNonEmptyContainer(j: Json)
  {
    (j.JArray? || j.JObject?) && !IsEmpty(j)
  }

  /**
   * `ObjectNode.set(key, value)`: replaces the value of an existing key in
   * place (keeping its position) or appends a new field at the end.
   */
  function Put(fields: Fields, key: string, v: Json): (r: Fields)
    ensures |r| == if Has(fields, key) then |fields| else |fields| + 1
  {
    if |fields| == 0 then [(key, v)]
    else if fields[0].0 == key then [(key, v)] + fields[1..]
    else [fields[0]] + Put(fields[1..], key, v)
  }

  /** A put on a present key replaces its first field in place, at the same position. */
  lemma {:induction false} PutReplacesFirst(fields: Fields, key: string, v: Json, i: nat)
    requires i < |fields| && fields[i].0 == key
    requires forall j :: 0 <= j < i ==> fields[j].0 != key
    ensures Put(fields, key, v) == fields[i := (key, v)]
  {
    if i > 0 {
      PutReplacesFirst(fields[1..], key, v, i - 1);
      assert fields[i := (key, v)] == [fields[0]] + fields[1..][i - 1 := (key, v)];
    } else {
      assert fields[0 := (key, v)] == [(key, v)] + fields[1..];
    }
  }

  /** A put on an absent key appends the new field at the end. */
  lemma {:induction false} PutAppends(fields: Fields, key: string, v: Json)
    requires !Has(fields, key)
    ensures Put(fields, key, v) == fields + [(key, v)]
  {
    if |fields| > 0 {
      assert !Has(fields[1..], key) by {
        forall k | 0 <= k < |fields[1..]|
          ensures fields[1..][k].0 != key
        {
          assert fields[1..][k] == fields[k + 1];
        }
      }
      PutAppends(fields[1..], key, v);
      assert fields + [(key, v)] == [fields[0]] + (fields[1..] + [(key, v)]);
    }
  }

  /** After a put, the key holds the new value. */
  lemma {:induction false} LookupPutSame(fields: Fields, key: string, v: Json)
    ensures Lookup(Put(fields, key, v), key) == Some(v)
  {
    if |fields| > 0 && fields[0].0 != key {
      LookupPutSame(fields[1..], key, v);
      assert Put(fields, key, v)[1..] == Put(fields[1..], key, v);
    }
  }

  /** A put leaves every other key as it was. */
  lemma {:induction false} LookupPutOther(fields: Fields, key: string, v: Json, other: string)
    requires other != key
    ensures Lookup(Put(fields, key, v), other) == Lookup(fields, other)
  {
    if |fields| == 0 {
    } else if fields[0].0 == key {
      assert Put(fields, key, v)[1..] == fields[1..];
    } else if fields[0].0 != other {
      LookupPutOther(fields[1..], key, v, other);
      assert Put(fields, key, v)[1..] == Put(fields[1..], key, v);
    }
  }

  /** Putting back the value a key already holds changes nothing. */
  lemma {:induction false} PutExisting(fields: Fields, key: string, v: Json)
    requires Lookup(fields, key) == Some(v)
    ensures Put(fields, key, v) == fields
  {
    if fields[0].0 == key {
      assert [(key, v)] + fields[1..] == [fields[0]] + fields[1..];
      assert fields == [fields[0]] + fields[1..];
    } else {
      PutExisting(fields[1..], key, v);
      assert fields == [fields[0]] + fields[1..];
    }
  }

  /** The keys after a put: the old ones plus the one put. */
  lemma HasPut(fields: Fields, key: string, v: Json, other: string)
    ensures Has(Put(fields, key, v), other) <==> other == key || Has(fields, other)
  {
    if other == key {
      LookupPutSame(fields, key, v);
    } else {
      LookupPutOther(fields, key, v, other);
    }
  }

  /**
   * Every object, at every depth, names each key at most once. Jackson's
   * parser keeps the last of repeated keys, so every tree it returns has
   * this property.
   */
  predicate UniqueKeys(j: Json)
    decreases j
  {
    match j
    case JArray(items) => forall k :: 0 <= k < |items| ==> UniqueKeys(items[k])
    case JObject(fields) =>
      && (forall i, k :: 0 <= i < k < |fields| ==> fields[i].0 != fields[k].0)
      && (forall k :: 0 <= k < |fields| ==> UniqueKeys(fields[k].1))
    case _ => true
  }

  /** The fields of an object satisfying `UniqueKeys`. */
  predicate UniqueFields(fields: Fields)
  {
    UniqueKeys(JObject(fields))
  }

  /** An object with unique keys is a first field with unique keys and a rest not naming it. */
  lemma UniqueCons(field: (string, Json), rest: Fields)
    ensures UniqueFields([field] + rest) <==>
      && UniqueKeys(field.1)
      && UniqueFields(rest)
      && forall k :: 0 <= k < |rest| ==> rest[k].0 != field.0
  {
    var fields := [field] + rest;
    assert forall k :: 0 <= k < |rest| ==> rest[k] == fields[k + 1];
    if UniqueFields(fields) {
      assert UniqueKeys(fields[0].1);
      forall i, k | 0 <= i < k < |rest|
        ensures rest[i].0 != rest[k].0
      {
        assert fields[i + 1].0 != fields[k + 1].0;
      }
      forall k | 0 <= k < |rest|
        ensures UniqueKeys(rest[k].1)
      {
        assert UniqueKeys(fields[k + 1].1);
      }
    }
    if UniqueKeys(field.1) && UniqueFields(rest) && forall k :: 0 <= k < |rest| ==> rest[k].0 != field.0 {
      forall i, k | 0 <= i < k < |fields|
        ensures fields[i].0 != fields[k].0
      {
        if i > 0 {
          assert fields[i] == rest[i - 1] && fields[k] == rest[k - 1];
        }
      }
    }
  }

  /** In an object with unique keys, every value has unique keys. */
  lemma LookupUnique(fields: Fields, key: string)
    requires UniqueFields(fields) && Has(fields, key)
    ensures UniqueKeys(Lookup(fields, key).value)
  {
    var w :| 0 <= w < |fields| && fields[w] == (key, Lookup(fields, key).value);
    assert UniqueKeys(fields[w].1);
  }

  /** A put keeps every key unique, provided the value put has unique keys. */
  lemma {:induction false} PutUnique(fields: Fields, key: string, v: Json)
    requires UniqueFields(fields) && UniqueKeys(v)
    ensures UniqueFields(Put(fields, key, v))
  {
    if |fields| == 0 {
      UniqueCons((key, v), []);
    } else {
      var rest := fields[1..];
      assert fields == [fields[0]] + rest;
      UniqueCons(fields[0], rest);
      if fields[0].0 == key {
        UniqueCons((key, v), rest);
      } else {
        PutUnique(rest, key, v);
        var pr := Put(rest, key, v);
        assert Put(fields, key, v) == [fields[0]] + pr;
        forall i | 0 <= i < |pr|
          ensures pr[i].0 != fields[0].0
        {
          HasPut(rest, key, v, pr[i].0);
          assert Has(pr, pr[i].0);
          if pr[i].0 != key {
            var x := Lookup(rest, pr[i].0);
            var w :| 0 <= w < |rest| && rest[w] == (pr[i].0, x.value);
            assert fields[w + 1].0 == pr[i].0;
          }
        }
        UniqueCons(fields[0], pr);
      }
    }
  }

  /**
   * A Jackson ObjectNode: a mutable object whose only state is its ordered
   * field list.
   */
  class ObjectNode {
    var fields: Fields

    constructor (fields: Fields)
      ensures this.fields == fields
    {
      this.fields := fields;
    }

    /** `get(key)` */
    function Get(key: string): Option<Json>
      reads this
    {
      Lookup(fields, key)
    }

    /** `node.putArray(key).add(item)`: a fresh one-element array replaces or adds `key`. */
    method PutArrayWith(key: string, item: string)
      modifies this
      ensures fields == Put(old(fields), key, JArray([JString(item)]))
    {
      fields := Put(fields, key, JArray([JString(item)]));
    }

    /** `set(key, value)` */
    method Set(key: string, value: Json)
      modifies this
      ensures fields == Put(old(fields), key, value)
    {
      fields := Put(fields, key, value);
    }
  }
}
