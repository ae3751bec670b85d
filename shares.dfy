/**
 * What the share operations have in common: the kinds of share and their
 * wire values, the members of a share the operations read, the header of
 * the sharing API and the way `Uri.Builder.appendEncodedPath` joins a path
 * to a URI.
 */
module Shares {
  import opened Wrappers
  import opened Strings

  /** `ShareType`. */
  datatype ShareType = NoShared | User | Group | PublicLink | Email | Contact | Federated

  /** `ShareType.value`, the number the sharing API and the WebDAV properties use. */
  function ShareTypeValue(t: ShareType): int {
    match t
    case NoShared => -1
    case User => 0
    case Group => 1
    case PublicLink => 3
    case Email => 4
    case Contact => 5
    case Federated => 6
  }

  /** `ShareType.fromValue`: the kind with that value, `null` for any other number. */
  function ShareTypeFromValue(v: int): (r: Option<ShareType>)
    ensures r.Some? ==> ShareTypeValue(r.value) == v
  {
    if v == -1 then Some(NoShared)
    else if v == 0 then Some(User)
    else if v == 1 then Some(Group)
    else if v == 3 then Some(PublicLink)
    else if v == 4 then Some(Email)
    else if v == 5 then Some(Contact)
    else if v == 6 then Some(Federated)
    else None
  }

  /** Every kind is found again from its value, and only numbers that are some kind's value are found. */
  lemma ShareTypeValueRoundTrip(t: ShareType, v: int)
    ensures ShareTypeFromValue(ShareTypeValue(t)) == Some(t)
    ensures ShareTypeFromValue(v).Some? <==> exists k :: ShareTypeValue(k) == v
  {
    if ShareTypeFromValue(v).None? {
      forall k | true ensures ShareTypeValue(k) != v {
        assert ShareTypeFromValue(ShareTypeValue(k)) == Some(k);
      }
    }
  }

  /** The members of a `RemoteShare` the share operations read or write. */
  datatype RemoteShare = RemoteShare(remoteId: string, shareType: ShareType, path: string, token: string, shareLink: string)

  /** The permissions value that means "not chosen" (`DEFAULT_PERMISSION`). */
  const DefaultPermission := -1

  /** The header every request to the sharing API carries, and its value. */
  const OcsApiHeader := "OCS-APIREQUEST"
  const OcsApiHeaderValue := "true"

  /**
   * `Uri.Builder.appendEncodedPath` on a URI whose text ends with its path:
   * the segment goes after exactly one slash.
   */
  function AppendEncodedPath(uri: string, segment: string): (r: string)
    ensures StartsWith(r, uri) && EndsWith(r, segment)
    ensures |r| - |segment| - |uri| <= 1
    ensures |r| - |segment| >= 1 && r[|r| - |segment| - 1] == '/'
  {
    var joined := if EndsWith(uri, "/") then uri + segment else uri + "/" + segment;
    assert joined[..|uri|] == uri;
    assert joined[|joined| - |segment|..] == segment;
    joined
  }

  /** A form pair `key=value`. */
  function FormPair(key: string, value: string): (r: string)
    ensures |r| == |key| + 1 + |value| && StartsWith(r, key) && r[|key|] == '=' && r[|key| + 1..] == value
  {
    assert (key + "=" + value)[..|key|] == key;
    key + "=" + value
  }

  /** The `key=value` pairs of a form, in order. */
  function FormPairs<K>(fs: seq<Field<K>>, keyText: K -> string): (r: seq<string>)
    ensures |r| == |fs|
  {
    if fs == [] then [] else [FormPair(keyText(fs[0].key), fs[0].value)] + FormPairs(fs[1..], keyText)
  }

  /** The encoded form (`FormBody`): its pairs joined by `&`. */
  function FormBody<K>(fs: seq<Field<K>>, keyText: K -> string): string {
    JoinWith(FormPairs(fs, keyText), "&")
  }

  /** The pair at each position is that of the field there. */
  lemma {:induction false} FormPairsAt<K>(fs: seq<Field<K>>, keyText: K -> string, i: nat)
    requires i < |fs|
    ensures FormPairs(fs, keyText)[i] == FormPair(keyText(fs[i].key), fs[i].value)
  {
    if i > 0 {
      FormPairsAt(fs[1..], keyText, i - 1);
    }
  }

  /** A form of one field is that field's pair. */
  lemma FormBodySingle<K>(f: Field<K>, keyText: K -> string)
    ensures FormBody([f], keyText) == FormPair(keyText(f.key), f.value)
  {
    assert [f][1..] == [];
  }

  /**
   * A form whose names and values hold no `&` splits back into its pairs,
   * field by field.
   */
  lemma SplitFormBody<K>(fs: seq<Field<K>>, keyText: K -> string)
    requires |fs| >= 1
    requires forall k :: '&' !in keyText(k)
    requires forall f | f in fs :: '&' !in f.value
    ensures SplitAll(FormBody(fs, keyText), '&') == FormPairs(fs, keyText)
  {
    var pairs := FormPairs(fs, keyText);
    forall i | 0 <= i < |pairs| ensures '&' !in pairs[i] {
      FormPairsAt(fs, keyText, i);
      assert fs[i] in fs;
      assert pairs[i] == keyText(fs[i].key) + "=" + fs[i].value;
    }
    SplitAllJoin(pairs, '&');
  }

  /** One field of a request body: the setting it carries and the text sent for it. */
  datatype Field<K> = Field(key: K, value: string)

  /** A one-field list for a value that is to be sent, and no field otherwise. */
  function Optional<K>(key: K, value: Option<string>): seq<Field<K>> {
    if value.Some? then [Field(key, value.value)] else []
  }

  /** The value listed first under a key. */
  function Lookup<K(==)>(fs: seq<Field<K>>, key: K): Option<string> {
    if fs == [] then None
    else if fs[0].key == key then Some(fs[0].value)
    else Lookup(fs[1..], key)
  }

  lemma {:induction false} LookupAppend<K>(a: seq<Field<K>>, b: seq<Field<K>>, key: K)
    ensures Lookup(a + b, key) == if Lookup(a, key).Some? then Lookup(a, key) else Lookup(b, key)
  {
    if a == [] {
      assert a + b == b;
    } else {
      assert (a + b)[0] == a[0] && (a + b)[1..] == a[1..] + b;
      LookupAppend(a[1..], b, key);
    }
  }

  lemma LookupOptional<K>(key: K, value: Option<string>, k: K)
    ensures Lookup(Optional(key, value), k) == if key == k then value else None
  {
    if value.Some? {
      assert Optional(key, value)[1..] == [];
    }
  }

  /**
   * The request fields for the keys of `ks` that have a value, in the order
   * of `ks`: what a run of "add this field if it is set" steps builds.
   */
  function FieldsFor<K>(value: K -> Option<string>, ks: seq<K>): seq<Field<K>> {
    if ks == [] then []
    else FieldsFor(value, ks[..|ks| - 1]) + Optional(ks[|ks| - 1], value(ks[|ks| - 1]))
  }

  /** One more step of `FieldsFor`, on a prefix of `ks`. */
  lemma FieldsForStep<K>(value: K -> Option<string>, ks: seq<K>, n: nat)
    requires 0 < n <= |ks|
    ensures FieldsFor(value, ks[..n]) == FieldsFor(value, ks[..n - 1]) + Optional(ks[n - 1], value(ks[n - 1]))
  {
    assert ks[..n][..n - 1] == ks[..n - 1];
  }

  /** A field carries the value of its key, and the keys without a value have no field. */
  lemma {:induction false} LookupFieldsFor<K>(value: K -> Option<string>, ks: seq<K>, k: K)
    ensures Lookup(FieldsFor(value, ks), k) == if k in ks then value(k) else None
  {
    if ks != [] {
      var init, last := ks[..|ks| - 1], ks[|ks| - 1];
      LookupFieldsFor(value, init, k);
      LookupAppend(FieldsFor(value, init), Optional(last, value(last)), k);
      LookupOptional(last, value(last), k);
      assert ks == init + [last];
      assert k in ks <==> k in init || k == last;
    }
  }

  /** The keys of a field list, in order. */
  function Keys<K>(fs: seq<Field<K>>): seq<K> {
    if fs == [] then [] else [fs[0].key] + Keys(fs[1..])
  }

  lemma {:induction false} KeysAppend<K>(a: seq<Field<K>>, b: seq<Field<K>>)
    ensures Keys(a + b) == Keys(a) + Keys(b)
  {
    if a == [] {
      assert a + b == b;
    } else {
      assert (a + b)[0] == a[0] && (a + b)[1..] == a[1..] + b;
      KeysAppend(a[1..], b);
    }
  }

  /** The keys of `ks` that have a value, in the order of `ks`. */
  function Selected<K>(value: K -> Option<string>, ks: seq<K>): seq<K> {
    if ks == [] then []
    else Selected(value, ks[..|ks| - 1]) + (if value(ks[|ks| - 1]).Some? then [ks[|ks| - 1]] else [])
  }

  /** The fields come in the order of `ks`, one for each key with a value. */
  lemma {:induction false} KeysFieldsFor<K>(value: K -> Option<string>, ks: seq<K>)
    ensures Keys(FieldsFor(value, ks)) == Selected(value, ks)
  {
    if ks != [] {
      var init, last := ks[..|ks| - 1], ks[|ks| - 1];
      KeysFieldsFor(value, init);
      KeysAppend(FieldsFor(value, init), Optional(last, value(last)));
      if value(last).Some? {
        assert Optional(last, value(last))[1..] == [];
      }
    }
  }

  /** The fields for a prefix of the keys start the fields for all of them. */
  lemma {:induction false} FieldsForPrefix<K>(value: K -> Option<string>, ks: seq<K>, n: nat)
    requires n <= |ks|
    ensures FieldsFor(value, ks[..n]) <= FieldsFor(value, ks)
    decreases |ks|
  {
    if n < |ks| {
      FieldsForPrefix(value, ks[..|ks| - 1], n);
      assert ks[..|ks| - 1][..n] == ks[..n];
    } else {
      assert ks[..n] == ks;
    }
  }
}
