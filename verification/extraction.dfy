/** The rules that turn the body of an OK response into what an operation returns. Each rule
    answers `None` where the Java code throws while extracting; the envelope then counts that
    attempt as a retry. */
module Extraction {
  import opened Wire

  /** The object under `"data"`, as `getJSONObject("data")` finds it: absent when the body
      cannot be read as a JSON object, has no `"data"` member, or that member is `null` or
      not an object. */
  function DataObject(b: Body): (r: Option<map<string, Value>>)
    ensures r.Some? <==> b.Json? && "data" in b.fields && b.fields["data"].Obj?
    ensures r.Some? ==> r.value == b.fields["data"].fields
  {
    match b
    case Json(fields) =>
      if "data" in fields && fields["data"].Obj? then Some(fields["data"].fields) else None
    case _ => None
  }

  /** `getString(key)` succeeds: the member exists and holds a string. */
  predicate HasString(d: map<string, Value>, key: string)
  {
    key in d && d[key].Str?
  }

  /** The requested keys, as a set: repeated keys collapse. */
  function KeySet(keys: seq<string>): set<string>
  {
    set i | 0 <= i < |keys| :: keys[i]
  }

  /** The key-value rule: put every requested key, in order, with `getString(key)` as its
      value. One missing or non-string key makes the whole extraction throw. */
  function SelectKeys(d: map<string, Value>, keys: seq<string>): (r: Option<map<string, string>>)
    ensures r.Some? <==> forall i :: 0 <= i < |keys| ==> HasString(d, keys[i])
    ensures r.Some? ==> r.value.Keys == KeySet(keys)
    ensures r.Some? ==> forall k :: k in r.value ==> HasString(d, k) && r.value[k] == d[k].s
    decreases |keys|
  {
    if keys == [] then Some(map[])
    else
      var init := keys[..|keys| - 1];
      var key := keys[|keys| - 1];
      assert KeySet(keys) == KeySet(init) + {key} by {
        assert forall i :: 0 <= i < |init| ==> init[i] == keys[i];
      }
      match SelectKeys(d, init)
      case None => None
      case Some(m) => if HasString(d, key) then Some(m[key := d[key].s]) else None
  }

  /** What `readKVSecrets` returns for an OK body, or `None` when it throws. */
  function KeyValueSecrets(b: Body, keys: seq<string>): (r: Option<map<string, string>>)
    ensures r.Some? <==> DataObject(b).Some? && forall i :: 0 <= i < |keys| ==> HasString(DataObject(b).value, keys[i])
    ensures r.Some? ==> r.value.Keys == KeySet(keys)
    ensures r.Some? ==> forall k :: k in r.value ==> r.value[k] == b.fields["data"].fields[k].s
  {
    match DataObject(b)
    case None => None
    case Some(d) => SelectKeys(d, keys)
  }

  /** The member survives `new JSONObject(Map)`, which skips `null` values. */
  predicate Present(d: map<string, Value>, key: string)
  {
    key in d && !d[key].Null?
  }

  /** Every member that survives holds a string. */
  predicate AllStrings(d: map<string, Value>)
  {
    forall k :: k in d && Present(d, k) ==> d[k].Str?
  }

  /** The directory rule: every pair under `"data"`, each read with `getString`. The body
      arrives as a `Map` and is wrapped in `new JSONObject(Map)`, which drops `null`
      members, so a missing or `null` `"data"` throws "Secret data not found" and a `null`
      member of `"data"` is left out; any other non-string member throws. */
  function DirectorySecrets(b: Body): (r: Option<map<string, string>>)
    ensures r.Some? <==> DataObject(b).Some? && AllStrings(DataObject(b).value)
    ensures r.Some? ==> forall k :: k in r.value <==> Present(b.fields["data"].fields, k)
    ensures r.Some? ==> forall k :: k in r.value ==> k in b.fields["data"].fields && r.value[k] == b.fields["data"].fields[k].s
  {
    match DataObject(b)
    case None => None
    case Some(d) => if AllStrings(d) then Some(map k | k in d && Present(d, k) :: d[k].s) else None
  }

  /** The database and LDAP rule: the body as it came, when the message converter could read
      it; an unreadable body throws inside the request. */
  function VerbatimBody(b: Body): (r: Option<Body>)
    ensures r.Some? <==> !b.Malformed?
    ensures r.Some? ==> r.value == b
  {
    if b.Malformed? then None else Some(b)
  }

  /** The key-value result depends only on the set of requested keys: order and repetition
      do not matter. */
  lemma KeyValueDependsOnKeySet(b: Body, keys1: seq<string>, keys2: seq<string>)
    requires KeySet(keys1) == KeySet(keys2)
    ensures KeyValueSecrets(b, keys1) == KeyValueSecrets(b, keys2)
  {
    var r1, r2 := KeyValueSecrets(b, keys1), KeyValueSecrets(b, keys2);
    if DataObject(b).Some? {
      var d := DataObject(b).value;
      if r1.Some? {
        forall i | 0 <= i < |keys2| ensures HasString(d, keys2[i]) {
          assert keys2[i] in KeySet(keys2);
          var j :| 0 <= j < |keys1| && keys1[j] == keys2[i];
        }
        assert r1.value == r2.value;
      } else if r2.Some? {
        forall i | 0 <= i < |keys1| ensures HasString(d, keys1[i]) {
          assert keys1[i] in KeySet(keys1);
          var j :| 0 <= j < |keys2| && keys2[j] == keys1[i];
        }
        assert false;
      }
    }
  }

  /** When the directory rule succeeds, the key-value rule succeeds for any keys it found,
      and returns the directory result restricted to them: the directory rule returns every
      pair, not only requested ones. */
  lemma DirectoryCoversKeyValue(b: Body, keys: seq<string>)
    requires DirectorySecrets(b).Some?
    requires KeySet(keys) <= DirectorySecrets(b).value.Keys
    ensures KeyValueSecrets(b, keys).Some?
    ensures KeyValueSecrets(b, keys).value == map k | k in KeySet(keys) :: DirectorySecrets(b).value[k]
  {
    var d := DataObject(b).value;
    forall i | 0 <= i < |keys| ensures HasString(d, keys[i]) {
      assert keys[i] in KeySet(keys);
    }
  }

  /** The key-value rule can succeed where the directory rule throws, when `"data"` holds a
      non-string member nobody asked for. */
  lemma KeyValueNeedsOnlyRequestedKeys()
    ensures KeyValueSecrets(Json(map["data" := Obj(map["user" := Str("u1"), "ttl" := Scalar])]), ["user"])
            == Some(map["user" := "u1"])
    ensures DirectorySecrets(Json(map["data" := Obj(map["user" := Str("u1"), "ttl" := Scalar])])) == None
  {
    var d := map["user" := Str("u1"), "ttl" := Scalar];
    assert !d["ttl"].Str?;
    var r := KeyValueSecrets(Json(map["data" := Obj(d)]), ["user"]);
    assert HasString(d, "user");
    assert KeySet(["user"]) == {"user"};
    assert r.value == map["user" := "u1"];
  }

  /** A `null` member of `"data"` is left out by the directory rule, while the key-value rule,
      which parses the body text itself, throws when that key is requested. */
  lemma NullMemberDroppedByDirectoryOnly()
    ensures DirectorySecrets(Json(map["data" := Obj(map["user" := Str("u1"), "old" := Null])]))
            == Some(map["user" := "u1"])
    ensures KeyValueSecrets(Json(map["data" := Obj(map["user" := Str("u1"), "old" := Null])]), ["old"]) == None
  {
    var d := map["user" := Str("u1"), "old" := Null];
    assert !Present(d, "old") && Present(d, "user");
    var r := DirectorySecrets(Json(map["data" := Obj(d)]));
    assert r.value.Keys == {"user"};
    assert r.value == map["user" := "u1"];
  }

  /** Selection reads only the requested keys: changing a member nobody asked for changes
      nothing. */
  lemma {:induction false} SelectKeysIgnoresOtherMembers(d: map<string, Value>, keys: seq<string>, k: string, v: Value)
    requires k !in KeySet(keys)
    ensures SelectKeys(d[k := v], keys) == SelectKeys(d, keys)
    decreases |keys|
  {
    if keys != [] {
      var init := keys[..|keys| - 1];
      assert KeySet(init) <= KeySet(keys) by {
        forall i | 0 <= i < |init| ensures init[i] in KeySet(keys) {
          assert init[i] == keys[i];
        }
      }
      SelectKeysIgnoresOtherMembers(d, init, k, v);
      assert keys[|keys| - 1] in KeySet(keys);
    }
  }

  /** The key-value rule for every input: adding or replacing a member of `"data"` whose key
      was not requested, whatever its value, leaves the result unchanged. */
  lemma KeyValueIgnoresUnrequestedMembers(f: map<string, Value>, d: map<string, Value>, keys: seq<string>,
                                          k: string, v: Value)
    requires k !in KeySet(keys)
    ensures KeyValueSecrets(Json(f["data" := Obj(d[k := v])]), keys) == KeyValueSecrets(Json(f["data" := Obj(d)]), keys)
  {
    SelectKeysIgnoresOtherMembers(d, keys, k, v);
  }

  /** `data` without its `null` members, as `new JSONObject(Map)` holds it. */
  function WithoutNulls(d: map<string, Value>): (r: map<string, Value>)
    ensures forall key :: key in r <==> Present(d, key)
    ensures forall key :: key in r ==> key in d && r[key] == d[key]
  {
    map key | key in d && Present(d, key) :: d[key]
  }

  /** The directory rule for every input: it reads `data` exactly as if its `null` members
      were not there. */
  lemma DirectoryIgnoresNullMembers(f: map<string, Value>, d: map<string, Value>)
    ensures DirectorySecrets(Json(f["data" := Obj(d)])) == DirectorySecrets(Json(f["data" := Obj(WithoutNulls(d))]))
  {
    var e := WithoutNulls(d);
    assert AllStrings(d) <==> AllStrings(e);
    if AllStrings(d) {
      assert (map key | key in d && Present(d, key) :: d[key].s) == (map key | key in e && Present(e, key) :: e[key].s);
    }
  }
}
