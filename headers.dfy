/**
 * okhttp's header list: an ordered sequence of name/value pairs whose names
 * compare without regard to ASCII case. `Get` is `Headers.get` (the last value
 * for a name), `Set` is `Request.Builder.header` (remove every value for the
 * name, then append one) and `Add` is `Request.Builder.addHeader` (append).
 */
module Headers {
  import opened Wrappers
  import opened Strings

  datatype Header = Header(name: string, value: string)

  type HeaderList = seq<Header>

  predicate SameName(a: string, b: string) {
    EqualsIgnoreCase(a, b)
  }

  /** Every value stored under `name`, in list order. */
  function Values(hs: HeaderList, name: string): seq<string> {
    if hs == [] then []
    else (if SameName(hs[0].name, name) then [hs[0].value] else []) + Values(hs[1..], name)
  }

  /** `Headers.get`: the last value stored under `name`, if any. */
  function Get(hs: HeaderList, name: string): (r: Option<string>)
    ensures r.None? <==> Values(hs, name) == []
    ensures r.Some? ==> r.value == Values(hs, name)[|Values(hs, name)| - 1]
  {
    var vs := Values(hs, name);
    if vs == [] then None else Some(vs[|vs| - 1])
  }

  /** The list without any header named `name`. */
  function RemoveAll(hs: HeaderList, name: string): (r: HeaderList)
    ensures |r| <= |hs|
  {
    if hs == [] then []
    else (if SameName(hs[0].name, name) then [] else [hs[0]]) + RemoveAll(hs[1..], name)
  }

  /** `Request.Builder.header(name, value)`. */
  function Set(hs: HeaderList, name: string, value: string): HeaderList {
    RemoveAll(hs, name) + [Header(name, value)]
  }

  /** `Request.Builder.addHeader(name, value)`. */
  function Add(hs: HeaderList, name: string, value: string): HeaderList {
    hs + [Header(name, value)]
  }

  lemma {:induction false} ValuesAppend(a: HeaderList, b: HeaderList, name: string)
    ensures Values(a + b, name) == Values(a, name) + Values(b, name)
  {
    if a == [] {
      assert a + b == b;
    } else {
      assert (a + b)[0] == a[0];
      assert (a + b)[1..] == a[1..] + b;
      ValuesAppend(a[1..], b, name);
    }
  }

  /** Removing a name leaves no value for it and every other name's values untouched. */
  lemma {:induction false} ValuesRemoveAll(hs: HeaderList, name: string, other: string)
    ensures Values(RemoveAll(hs, name), other) ==
              if SameName(name, other) then [] else Values(hs, other)
  {
    if hs != [] {
      var head := if SameName(hs[0].name, name) then [] else [hs[0]];
      ValuesAppend(head, RemoveAll(hs[1..], name), other);
      ValuesRemoveAll(hs[1..], name, other);
    }
  }

  /** After `Set`, the name holds exactly the new value; other names are unchanged. */
  lemma ValuesSet(hs: HeaderList, name: string, value: string, other: string)
    ensures Values(Set(hs, name, value), other) ==
              if SameName(name, other) then [value] else Values(hs, other)
  {
    ValuesAppend(RemoveAll(hs, name), [Header(name, value)], other);
    ValuesRemoveAll(hs, name, other);
  }

  /** After `Add`, the new value follows the earlier values of the name. */
  lemma ValuesAdd(hs: HeaderList, name: string, value: string, other: string)
    ensures Values(Add(hs, name, value), other) ==
              Values(hs, other) + if SameName(name, other) then [value] else []
  {
    ValuesAppend(hs, [Header(name, value)], other);
  }

  /** Reading a header back after `Set` gives the value set, whatever the case of either name. */
  lemma GetSet(hs: HeaderList, name: string, value: string, other: string)
    ensures Get(Set(hs, name, value), other) ==
              if SameName(name, other) then Some(value) else Get(hs, other)
  {
    ValuesSet(hs, name, value, other);
  }

  /** `Set` twice under the same name is the same as setting the second value once. */
  lemma SetSet(hs: HeaderList, name: string, v1: string, v2: string, other: string)
    ensures Values(Set(Set(hs, name, v1), name, v2), other) == Values(Set(hs, name, v2), other)
  {
    ValuesSet(Set(hs, name, v1), name, v2, other);
    ValuesSet(hs, name, v1, other);
    ValuesSet(hs, name, v2, other);
  }

  /** Names that differ only in ASCII case select the same values. */
  lemma {:induction false} ValuesSameName(hs: HeaderList, a: string, b: string)
    requires SameName(a, b)
    ensures Values(hs, a) == Values(hs, b)
  {
    if hs != [] {
      ValuesSameName(hs[1..], a, b);
    }
  }

  /** Reading a header back after `Add` gives the value added. */
  lemma GetAdd(hs: HeaderList, name: string, value: string)
    ensures Get(Add(hs, name, value), name) == Some(value)
  {
    ValuesAdd(hs, name, value, name);
  }
}
