/** Query keys of the notifications cache and the query string of the list request. */
module NotificationQueries {
  import opened Wrappers
  import opened NotificationTypes
  import Text

  /** An element of a query key: a literal, the filters object, or an id. */
  datatype KeyPart = Literal(text: string) | FiltersPart(filters: NotificationsFilters)

  type QueryKey = seq<KeyPart>

  /** `notificationKeys.all`. */
  const All: QueryKey := [Literal("notifications")]

  /** `notificationKeys.lists()`. */
  function Lists(): (k: QueryKey)
    ensures All < k && |k| == |All| + 1
  {
    All + [Literal("list")]
  }

  /** `notificationKeys.list(filters)`: always under `lists()`, so invalidating `lists()` reaches every list. */
  function List(filters: NotificationsFilters): (k: QueryKey)
    ensures Lists() < k && All < k
    ensures k[|k| - 1] == FiltersPart(filters)
  {
    Lists() + [FiltersPart(filters)]
  }

  /** `notificationKeys.unreadCount()`. */
  function UnreadCount(): (k: QueryKey)
    ensures All < k && !(Lists() <= k)
  {
    var k := All + [Literal("unread-count")];
    assert k[1] != Lists()[1] by { assert "unread-count"[0] != "list"[0]; }
    k
  }

  /** `notificationKeys.detail(id)`. */
  function Detail(id: string): (k: QueryKey)
    ensures All < k && !(Lists() <= k)
    ensures k[|k| - 1] == Literal(id)
  {
    var k := All + [Literal("detail"), Literal(id)];
    assert k[1] != Lists()[1] by { assert "detail"[0] != "list"[0]; }
    k
  }

  /** Two list keys are equal exactly when their filters are: one cache entry per filter set. */
  lemma ListKeyInjective(f: NotificationsFilters, g: NotificationsFilters)
    ensures List(f) == List(g) <==> f == g
  {
    if List(f) == List(g) {
      assert List(f)[2] == List(g)[2];
    }
  }

  /**
   * `URLSearchParams` as an ordered list of name/value pairs; the names are
   * of any type with equality, so the query function below can use its own
   * four names.
   */
  type Params<K> = seq<(K, string)>

  /** The names of the pairs, in order. */
  function Names<K>(ps: Params<K>): (r: seq<K>)
    ensures |r| == |ps|
  {
    if ps == [] then [] else [ps[0].0] + Names(ps[1..])
  }

  /** `params.get(name)`: the first value under `name`. */
  function Get<K(==)>(ps: Params<K>, name: K): Option<string> {
    if ps == [] then None
    else if ps[0].0 == name then Some(ps[0].1)
    else Get(ps[1..], name)
  }

  /** `get` returns null exactly for a name that is not present. */
  lemma {:induction false} GetNoneIffAbsent<K>(ps: Params<K>, name: K)
    ensures Get(ps, name).None? <==> name !in Names(ps)
  {
    if ps != [] {
      GetNoneIffAbsent(ps[1..], name);
    }
  }

  /** Drops every pair named `name`. */
  function RemoveAll<K(==)>(ps: Params<K>, name: K): (r: Params<K>)
    ensures name !in Names(r)
    ensures name !in Names(ps) ==> r == ps
  {
    if ps == [] then []
    else if ps[0].0 == name then RemoveAll(ps[1..], name)
    else [ps[0]] + RemoveAll(ps[1..], name)
  }

  /** Dropping one name leaves the value under every other name as it was. */
  lemma {:induction false} RemoveAllKeepsOthers<K>(ps: Params<K>, name: K, n: K)
    requires n != name
    ensures Get(RemoveAll(ps, name), n) == Get(ps, n)
  {
    if ps != [] {
      RemoveAllKeepsOthers(ps[1..], name, n);
    }
  }

  /**
   * `params.set(name, value)`: replaces the first pair named `name` and drops
   * the others, or appends the pair when there is none.
   */
  function Set<K(==)>(ps: Params<K>, name: K, value: string): (r: Params<K>)
    ensures Get(r, name) == Some(value)
    ensures name !in Names(ps) ==> r == ps + [(name, value)]
  {
    if ps == [] then [(name, value)]
    else if ps[0].0 == name then [(name, value)] + RemoveAll(ps[1..], name)
    else [ps[0]] + Set(ps[1..], name, value)
  }

  /** `set` leaves the value under every other name as it was. */
  lemma {:induction false} SetKeepsOthers<K>(ps: Params<K>, name: K, value: string, n: K)
    requires n != name
    ensures Get(Set(ps, name, value), n) == Get(ps, n)
  {
    if ps != [] {
      if ps[0].0 == name {
        RemoveAllKeepsOthers(ps[1..], name, n);
      } else {
        SetKeepsOthers(ps[1..], name, value, n);
      }
    }
  }

  lemma {:induction false} NamesAppend<K>(ps: Params<K>, name: K, value: string)
    ensures Names(ps + [(name, value)]) == Names(ps) + [name]
  {
    if ps != [] {
      NamesAppend(ps[1..], name, value);
      assert (ps + [(name, value)])[1..] == ps[1..] + [(name, value)];
    }
  }

  /** The parameter names of the notifications list request. */
  datatype QueryName = ReadName | TypeName | PageName | LimitName

  /** The text of each name in the query string. */
  function NameText(n: QueryName): (s: string)
    ensures s != ""
  {
    match n
    case ReadName => "read"
    case TypeName => "type"
    case PageName => "page"
    case LimitName => "limit"
  }

  /** Distinct names have distinct texts, so the enumeration loses nothing. */
  lemma NameTextInjective(a: QueryName, b: QueryName)
    requires NameText(a) == NameText(b)
    ensures a == b
  {
    assert "read"[0] != "type"[0] && "read"[0] != "page"[0] && "read"[0] != "limit"[0];
    assert "type"[0] != "page"[0] && "type"[0] != "limit"[0] && "page"[0] != "limit"[0];
  }

  /** `String(b)` for a boolean. */
  function BoolText(b: bool): string {
    if b then "true" else "false"
  }

  /** A number is truthy when it is not 0. */
  predicate TruthyNumber(n: Option<int>) {
    n.Some? && n.value != 0
  }

  /**
   * One `params.set(name, value)` call as the query function makes it: the
   * name gets the value, every other name keeps its value, and a name not yet
   * present is appended at the end.
   */
  method SetParam(ps: Params<QueryName>, name: QueryName, value: string) returns (r: Params<QueryName>)
    ensures Get(r, name) == Some(value)
    ensures forall n :: n != name ==> Get(r, n) == Get(ps, n)
    ensures name !in Names(ps) ==> Names(r) == Names(ps) + [name]
  {
    r := Set(ps, name, value);
    forall n | n != name
      ensures Get(r, n) == Get(ps, n)
    {
      SetKeepsOthers(ps, name, value, n);
    }
    if name !in Names(ps) {
      NamesAppend(ps, name, value);
    }
  }

  /** The names a conditional `set` adds: `name` when it happens, nothing otherwise. */
  function NameIf(cond: bool, name: QueryName): seq<QueryName> {
    if cond then [name] else []
  }

  /**
   * The query string built by `useNotifications`' query function: `read` whenever
   * it is given (so `false` is sent as "false"), then `type`, `page` and `limit`
   * only when truthy (a page or limit of 0 is omitted), in that order.
   */
  method BuildParams(filters: NotificationsFilters) returns (params: Params<QueryName>)
    ensures Names(params) == NameIf(filters.read.Some?, ReadName) + NameIf(filters.kind.Some?, TypeName)
                           + NameIf(TruthyNumber(filters.page), PageName) + NameIf(TruthyNumber(filters.limit), LimitName)
    ensures Get(params, ReadName) == if filters.read.Some? then Some(BoolText(filters.read.value)) else None
    ensures Get(params, TypeName) == if filters.kind.Some? then Some(NotificationTypes.TypeName(filters.kind.value)) else None
    ensures Get(params, PageName) == if TruthyNumber(filters.page) then Some(Text.IntToString(filters.page.value)) else None
    ensures Get(params, LimitName) == if TruthyNumber(filters.limit) then Some(Text.IntToString(filters.limit.value)) else None
  {
    params := [];
    if filters.read.Some? {
      params := SetParam(params, ReadName, BoolText(filters.read.value));
    }
    ghost var names := NameIf(filters.read.Some?, ReadName);
    assert Names(params) == names;
    if filters.kind.Some? {
      params := SetParam(params, TypeName, NotificationTypes.TypeName(filters.kind.value));
    }
    names := names + NameIf(filters.kind.Some?, TypeName);
    assert Names(params) == names;
    if TruthyNumber(filters.page) {
      params := SetParam(params, PageName, Text.IntToString(filters.page.value));
    }
    names := names + NameIf(TruthyNumber(filters.page), PageName);
    assert Names(params) == names;
    if TruthyNumber(filters.limit) {
      params := SetParam(params, LimitName, Text.IntToString(filters.limit.value));
    }
  }
}
