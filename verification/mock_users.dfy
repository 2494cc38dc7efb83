/**
 * The mock users server: an in-memory list of user records that the handlers
 * search, filter, sort and page, and change by push, index assignment and splice.
 */
module MockUsers {
  import opened Wrappers
  import Seqs
  import Sorting
  import Text

  /** A user record of the users feature; every field is text. */
  datatype User = User(
    id: string,
    email: string,
    firstName: string,
    lastName: string,
    avatar: string,
    role: string,
    status: string,
    createdAt: string,
    updatedAt: string)

  const AvatarBase := "https://api.dicebear.com/7.x/avataaars/svg?seed="

  /** The five records the server starts with. */
  const Seed: seq<User> := [
    User("1", "john@example.com", "John", "Doe", AvatarBase + "john", "admin", "active",
      "2024-01-15T10:30:00Z", "2024-12-01T08:00:00Z"),
    User("2", "jane@example.com", "Jane", "Smith", AvatarBase + "jane", "user", "active",
      "2024-02-20T14:45:00Z", "2024-12-02T09:30:00Z"),
    User("3", "bob@example.com", "Bob", "Wilson", AvatarBase + "bob", "user", "inactive",
      "2024-03-10T09:00:00Z", "2024-10-15T16:20:00Z"),
    User("4", "alice@example.com", "Alice", "Johnson", AvatarBase + "alice", "moderator", "active",
      "2024-04-05T11:15:00Z", "2024-12-03T07:45:00Z"),
    User("5", "charlie@example.com", "Charlie", "Brown", AvatarBase + "charlie", "user", "pending",
      "2024-05-22T16:30:00Z", "2024-05-22T16:30:00Z")
  ]

  /** A query parameter that is present and not empty, which is when `||` keeps it. */
  predicate Given(param: Option<string>) {
    param.Some? && param.value != ""
  }

  /** `param || fallback`. */
  function OrDefault(param: Option<string>, fallback: string): (r: string)
    ensures Given(param) ==> r == param.value
    ensures !Given(param) ==> r == fallback
  {
    if Given(param) then param.value else fallback
  }

  /** `user[key] || ''`: the named field, or the empty text for a key that is not a field. */
  function FieldOf(u: User, key: string): string {
    match key
    case "id" => u.id
    case "email" => u.email
    case "firstName" => u.firstName
    case "lastName" => u.lastName
    case "avatar" => u.avatar
    case "role" => u.role
    case "status" => u.status
    case "createdAt" => u.createdAt
    case "updatedAt" => u.updatedAt
    case _ => ""
  }

  /** The search test: the lower-cased term occurs in the lower-cased first name, last name or email. */
  predicate Matches(u: User, term: string) {
    || Text.Includes(Text.Lower(u.firstName), Text.Lower(term))
    || Text.Includes(Text.Lower(u.lastName), Text.Lower(term))
    || Text.Includes(Text.Lower(u.email), Text.Lower(term))
  }

  function MatchesTerm(term: string): User -> bool {
    (u: User) => Matches(u, term)
  }

  function HasRole(role: string): User -> bool {
    (u: User) => u.role == role
  }

  function HasStatus(status: string): User -> bool {
    (u: User) => u.status == status
  }

  /** The search, role and status filters, in that order, each applied only when its parameter is given. */
  function Selected(us: seq<User>, search: Option<string>, role: Option<string>, status: Option<string>): seq<User> {
    var searched := if Given(search) then Seqs.Filter(us, MatchesTerm(search.value)) else us;
    var byRole := if Given(role) then Seqs.Filter(searched, HasRole(role.value)) else searched;
    if Given(status) then Seqs.Filter(byRole, HasStatus(status.value)) else byRole
  }

  /** The filter step of a listing: whether a filter applies, and what it keeps. */
  lemma FilterStep(us: seq<User>, applies: bool, p: User -> bool, u: User)
    ensures u in (if applies then Seqs.Filter(us, p) else us) <==> u in us && (!applies || p(u))
  {
    if applies {
      Seqs.FilterMembers(us, p);
      var r := Seqs.Filter(us, p);
      if u in r {
        var i :| 0 <= i < |r| && r[i] == u;
      }
      if u in us && p(u) {
        var i :| 0 <= i < |us| && us[i] == u;
      }
    }
  }

  /** A record is listed exactly when it is stored and passes every given filter. */
  lemma SelectedExactly(us: seq<User>, search: Option<string>, role: Option<string>, status: Option<string>, u: User)
    ensures u in Selected(us, search, role, status) <==>
      && u in us
      && (!Given(search) || Matches(u, search.value))
      && (!Given(role) || u.role == role.value)
      && (!Given(status) || u.status == status.value)
  {
    var searched := if Given(search) then Seqs.Filter(us, MatchesTerm(search.value)) else us;
    var byRole := if Given(role) then Seqs.Filter(searched, HasRole(role.value)) else searched;
    FilterStep(us, Given(search), MatchesTerm(if Given(search) then search.value else ""), u);
    FilterStep(searched, Given(role), HasRole(if Given(role) then role.value else ""), u);
    FilterStep(byRole, Given(status), HasStatus(if Given(status) then status.value else ""), u);
  }

  /**
   * The comparator: `String(a).localeCompare(String(b))` of the sort fields,
   * negated for `desc`; `a` may come first when the comparison is at most zero.
   */
  function Order(sortBy: string, desc: bool): (User, User) -> bool {
    (a: User, b: User) =>
      if desc then Text.LexLe(FieldOf(b, sortBy), FieldOf(a, sortBy))
      else Text.LexLe(FieldOf(a, sortBy), FieldOf(b, sortBy))
  }

  /** Either order is a consistent comparator, so the sort is well defined. */
  lemma OrderIsTotalPreorder(sortBy: string, desc: bool)
    ensures Sorting.TotalPreorder(Order(sortBy, desc))
  {
    var le := Order(sortBy, desc);
    forall a: User, b: User
      ensures le(a, b) || le(b, a)
    {
      Text.LexLeTotal(FieldOf(a, sortBy), FieldOf(b, sortBy));
    }
    forall a: User, b: User, c: User | le(a, b) && le(b, c)
      ensures le(a, c)
    {
      if desc {
        Text.LexLeTransitive(FieldOf(c, sortBy), FieldOf(b, sortBy), FieldOf(a, sortBy));
      } else {
        Text.LexLeTransitive(FieldOf(a, sortBy), FieldOf(b, sortBy), FieldOf(c, sortBy));
      }
    }
  }

  /** The listing is ordered by the sort field, and is a reordering of the selection. */
  lemma {:induction false} ListedInOrder(us: seq<User>, sortBy: string, desc: bool)
    ensures var sorted := Sorting.Sort(us, Order(sortBy, desc));
      && Sorting.SortedBy(sorted, Order(sortBy, desc))
      && multiset(sorted) == multiset(us)
  {
    OrderIsTotalPreorder(sortBy, desc);
    Sorting.SortSorted(us, Order(sortBy, desc));
  }

  /**
   * `Math.ceil(total / limit)`; `None` for a zero limit, where the division
   * gives `Infinity` or `NaN`.
   */
  function TotalPages(total: nat, limit: int): (r: Option<int>)
    ensures r.None? <==> limit == 0
    ensures limit > 0 ==> r.Some? && r.value >= 0 && (r.value - 1) * limit < total <= r.value * limit
  {
    if limit == 0 then None
    else if limit > 0 then
      var q := (total + limit - 1) / limit;
      CeilBounds(total, limit, q);
      Some(q)
    else Some(-(total / -limit))
  }

  lemma CeilBounds(total: nat, limit: int, q: int)
    requires limit > 0 && q == (total + limit - 1) / limit
    ensures q >= 0 && (q - 1) * limit < total <= q * limit
  {
    var a := total + limit - 1;
    assert limit * q <= a < limit * q + limit;
    assert (q - 1) * limit == q * limit - limit;
  }

  datatype UsersResponse = UsersResponse(data: seq<User>, total: nat, page: int, limit: int, totalPages: Option<int>)

  /** The request body of a create or update, `Partial<User>`: `None` for an absent field. */
  datatype UserPatch = UserPatch(
    id: Option<string>,
    email: Option<string>,
    firstName: Option<string>,
    lastName: Option<string>,
    avatar: Option<string>,
    role: Option<string>,
    status: Option<string>,
    createdAt: Option<string>,
    updatedAt: Option<string>)

  /** The text a template literal gives an optional string: `"undefined"` when absent. */
  function Interpolate(s: Option<string>): string {
    if s.Some? then s.value else "undefined"
  }

  /**
   * The record `POST /api/users` creates; `id` stands for `crypto.randomUUID()`, and `created` and
   * `updated` for the two separate reads of the current ISO time, which may differ.
   */
  function NewUser(body: UserPatch, id: string, created: string, updated: string): (u: User)
    ensures u.id == id
    ensures u.email == OrDefault(body.email, "") && u.firstName == OrDefault(body.firstName, "")
    ensures u.lastName == OrDefault(body.lastName, "")
    ensures u.role == OrDefault(body.role, "user") && u.role != ""
    ensures u.status == "pending"
    ensures Text.StartsWith(u.avatar, AvatarBase) && u.avatar[|AvatarBase|..] == Interpolate(body.firstName)
    ensures u.createdAt == created && u.updatedAt == updated
  {
    var avatar := AvatarBase + Interpolate(body.firstName);
    assert avatar[..|AvatarBase|] == AvatarBase;
    User(id, OrDefault(body.email, ""), OrDefault(body.firstName, ""), OrDefault(body.lastName, ""),
      avatar, OrDefault(body.role, "user"), "pending", created, updated)
  }

  /** `{ ...user, ...body, updatedAt: now }`: each present field replaces the stored one, then `updatedAt` is refreshed. */
  function Overlay(u: User, body: UserPatch, now: string): (r: User)
    ensures r.updatedAt == now
    ensures r.id == if body.id.Some? then body.id.value else u.id
    ensures r.email == if body.email.Some? then body.email.value else u.email
    ensures r.firstName == if body.firstName.Some? then body.firstName.value else u.firstName
    ensures r.lastName == if body.lastName.Some? then body.lastName.value else u.lastName
    ensures r.avatar == if body.avatar.Some? then body.avatar.value else u.avatar
    ensures r.role == if body.role.Some? then body.role.value else u.role
    ensures r.status == if body.status.Some? then body.status.value else u.status
    ensures r.createdAt == if body.createdAt.Some? then body.createdAt.value else u.createdAt
  {
    User(body.id.GetOr(u.id), body.email.GetOr(u.email), body.firstName.GetOr(u.firstName),
      body.lastName.GetOr(u.lastName), body.avatar.GetOr(u.avatar), body.role.GetOr(u.role),
      body.status.GetOr(u.status), body.createdAt.GetOr(u.createdAt), now)
  }

  const EmptyPatch := UserPatch(None, None, None, None, None, None, None, None, None)

  /** An empty body changes nothing but `updatedAt`. */
  lemma EmptyPatchOnlyTouches(u: User, now: string)
    ensures Overlay(u, EmptyPatch, now) == u.(updatedAt := now)
  {
  }

  /** Applying the same update twice is the same as applying it once. */
  lemma OverlayIdempotent(u: User, body: UserPatch, now: string)
    ensures Overlay(Overlay(u, body, now), body, now) == Overlay(u, body, now)
  {
  }

  /** The test `u.id === id`. */
  function IdIs(id: string): User -> bool {
    (u: User) => u.id == id
  }

  /** The module-level `mockUsers` and the handlers that read and change it. */
  class UsersDb {
    var users: seq<User>

    constructor()
      ensures users == Seed
    {
      users := Seed;
    }

    /**
     * `GET /api/users`. `page` and `limit` are the parsed parameters, `None`
     * when absent or empty; the other parameters are the raw text, if present.
     */
    method List(page: Option<int>, limit: Option<int>, search: Option<string>, role: Option<string>,
                status: Option<string>, sortBy: Option<string>, sortOrder: Option<string>)
      returns (resp: UsersResponse)
      ensures resp.total == |Selected(users, search, role, status)|
      ensures resp.page == page.GetOr(1) && resp.limit == limit.GetOr(10)
      ensures resp.totalPages == TotalPages(resp.total, resp.limit)
      ensures resp.data == Seqs.Page(
        Sorting.Sort(Selected(users, search, role, status),
          Order(OrDefault(sortBy, "createdAt"), OrDefault(sortOrder, "desc") == "desc")),
        resp.page, resp.limit)
    {
      var p := page.GetOr(1);
      var l := limit.GetOr(10);
      var key := OrDefault(sortBy, "createdAt");
      var desc := OrDefault(sortOrder, "desc") == "desc";
      var filtered := users;
      if Given(search) {
        filtered := Seqs.Filter(filtered, MatchesTerm(search.value));
      }
      if Given(role) {
        filtered := Seqs.Filter(filtered, HasRole(role.value));
      }
      if Given(status) {
        filtered := Seqs.Filter(filtered, HasStatus(status.value));
      }
      filtered := Sorting.Sort(filtered, Order(key, desc));
      var total := |filtered|;
      var data := Seqs.Page(filtered, p, l);
      resp := UsersResponse(data, total, p, l, TotalPages(total, l));
    }

    /** `GET /api/users/:id`: the first record with the id, or `None` for the 404 reply. */
    method Get(id: string) returns (reply: Option<User>)
      ensures reply.Some? <==> exists i :: 0 <= i < |users| && users[i].id == id
      ensures reply.Some? ==> reply.value in users && reply.value.id == id
      // The first record with that id, as `Array.prototype.find` returns.
      ensures reply.Some? ==>
        exists i :: 0 <= i < |users| && users[i] == reply.value && forall j :: 0 <= j < i ==> users[j].id != id
    {
      var i := Seqs.FindIndex(users, IdIs(id));
      if i.None? {
        return None;
      }
      return Some(users[i.value]);
    }

    /** `POST /api/users`: the new record goes at the end; the reply is the 201 with that record. */
    method Create(body: UserPatch, id: string, createdAt: string, updatedAt: string) returns (created: User)
      modifies this
      ensures created == NewUser(body, id, createdAt, updatedAt)
      ensures users == old(users) + [created]
    {
      created := NewUser(body, id, createdAt, updatedAt);
      users := users + [created];
    }

    /** `PATCH /api/users/:id`: overlays the body on the first record with the id, in place; `None` is the 404 reply. */
    method Update(id: string, body: UserPatch, now: string) returns (reply: Option<User>)
      modifies this
      ensures Seqs.FindIndex(old(users), IdIs(id)).None? ==> users == old(users) && reply.None?
      ensures Seqs.FindIndex(old(users), IdIs(id)).Some? ==>
        var i := Seqs.FindIndex(old(users), IdIs(id)).value;
        users == old(users)[i := Overlay(old(users)[i], body, now)] && reply == Some(users[i])
    {
      var i := Seqs.FindIndex(users, IdIs(id));
      if i.None? {
        return None;
      }
      users := users[i.value := Overlay(users[i.value], body, now)];
      return Some(users[i.value]);
    }

    /** `DELETE /api/users/:id`: removes the first record with the id; `false` is the 404 reply. */
    method Delete(id: string) returns (found: bool)
      modifies this
      ensures found == Seqs.FindIndex(old(users), IdIs(id)).Some?
      ensures !found ==> users == old(users)
      ensures found ==> users == Seqs.RemoveAt(old(users), Seqs.FindIndex(old(users), IdIs(id)).value)
    {
      var i := Seqs.FindIndex(users, IdIs(id));
      if i.None? {
        return false;
      }
      users := Seqs.RemoveAt(users, i.value);
      return true;
    }
  }
}
