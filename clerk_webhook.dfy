/**
 * The identity-sync webhook of src/app/api/webhooks/clerk/route.ts: it checks
 * the three Svix headers, asks the signature verifier, and then applies one
 * user event to the store.
 *
 * The verifier is an oracle (`verified`), the database failing for reasons
 * outside the schema (a lost connection, say) is an oracle (`fault`), and the
 * request's clock is a value (`now`). `Dispatch` is the handler as a function
 * of the store; `Database.Post` runs the same steps against a mutable store.
 */
module ClerkWebhook {
  import opened Wrappers
  import opened Schema

  const StatusOk: int := 200
  const StatusBadRequest: int := 400
  const StatusServerError: int := 500

  /** One entry of a user's `email_addresses`. */
  datatype EmailAddress = EmailAddress(id: string, emailAddress: string)

  /** The part of the identity provider's user payload the handler reads. */
  datatype UserJson = UserJson(
    id: ClerkUserId,
    primaryEmailAddressId: Option<string>,
    emailAddresses: seq<EmailAddress>)

  /** The event types the handler's switch has a branch for. */
  const HandledTypes: set<string> := {"user.created", "user.updated", "user.deleted"}

  /**
   * A verified event, by its `type`; deletions carry only an optional id.
   * `Unhandled` stands for an event whose type is none of `HandledTypes`.
   */
  datatype Event =
    | UserCreated(user: UserJson)
    | UserUpdated(user: UserJson)
    | UserDeleted(deletedId: Option<ClerkUserId>)
    | Unhandled(eventType: string)

  /** The three signature headers (absent when the request lacks them) and the event the body carries. */
  datatype Request = Request(
    svixId: Option<string>,
    svixTimestamp: Option<string>,
    svixSignature: Option<string>,
    event: Event)

  /** The HTTP status returned and the store afterwards. */
  datatype Reply = Reply(status: int, store: Store)

  /** JavaScript truthiness of an optional string: absent and the empty string are both false. */
  predicate Present(o: Option<string>) {
    o.Some? && o.value != ""
  }

  predicate HeadersPresent(req: Request) {
    Present(req.svixId) && Present(req.svixTimestamp) && Present(req.svixSignature)
  }

  /**
   * `email_addresses.find(e => e.id === primary_email_address_id)?.email_address`:
   * the address of the first entry whose id is the primary id, or nothing.
   * A null primary id matches no entry.
   */
  function PrimaryEmail(addresses: seq<EmailAddress>, primaryId: Option<string>): (r: Option<string>)
    ensures r.None? <==>
              primaryId.None? || forall i :: 0 <= i < |addresses| ==> addresses[i].id != primaryId.value
    ensures r.Some? ==>
              exists i :: && 0 <= i < |addresses| && addresses[i].id == primaryId.value
                          && addresses[i].emailAddress == r.value
                          && forall j :: 0 <= j < i ==> addresses[j].id != primaryId.value
    decreases |addresses|
  {
    if primaryId.None? || |addresses| == 0 then None
    else if addresses[0].id == primaryId.value then Some(addresses[0].emailAddress)
    else
      var r := PrimaryEmail(addresses[1..], primaryId);
      assert forall i :: 1 <= i < |addresses| ==> addresses[i] == addresses[1..][i - 1];
      r
  }

  /** The values `user.created` inserts: status `free`, onboarding not completed, timestamps by default. */
  function CreatedUserValues(id: ClerkUserId, email: string): UserValues {
    UserValues(id, email, Some(Free), Some(false), None, None)
  }

  /** The email column `user.updated` sets: only a present primary email replaces the stored one. */
  function UpdatedEmail(u: UserJson): (r: Option<string>)
    ensures r.Some? <==> Present(PrimaryEmail(u.emailAddresses, u.primaryEmailAddressId))
    ensures r.Some? ==> r == PrimaryEmail(u.emailAddresses, u.primaryEmailAddressId) && r.value != ""
  {
    var e := PrimaryEmail(u.emailAddresses, u.primaryEmailAddressId);
    if Present(e) then e else None
  }

  /** The event's branch issues a database statement: the branches that do not return before reaching one. */
  predicate IssuesStatement(e: Event) {
    match e
    case UserCreated(u) => Present(PrimaryEmail(u.emailAddresses, u.primaryEmailAddressId))
    case UserUpdated(_) => true
    case UserDeleted(id) => Present(id)
    case Unhandled(_) => false
  }

  /** The handler, as a function from the store before the request to the reply. */
  function Dispatch(s: Store, req: Request, verified: bool, now: Timestamp, fault: bool): (r: Reply)
    ensures r.status == StatusOk || r.status == StatusBadRequest || r.status == StatusServerError
    ensures r.status != StatusOk ==> r.store == s
    ensures !HeadersPresent(req) ==> r == Reply(StatusBadRequest, s)
    ensures !verified ==> r == Reply(StatusBadRequest, s)
    ensures HeadersPresent(req) && verified && fault && IssuesStatement(req.event) ==> r == Reply(StatusServerError, s)
    ensures fault || !IssuesStatement(req.event) ==> r.store == s
  {
    if !HeadersPresent(req) then Reply(StatusBadRequest, s)
    else if !verified then Reply(StatusBadRequest, s)
    else match req.event
      case UserCreated(u) =>
        var email := PrimaryEmail(u.emailAddresses, u.primaryEmailAddressId);
        if !Present(email) then Reply(StatusBadRequest, s)
        else if fault then Reply(StatusServerError, s)
        else (
          match OnConflictDoNothing(InsertUser(s, UserRow(CreatedUserValues(u.id, email.value), now)), s)
          case Ok(t) => Reply(StatusOk, t)
          case Err(_) => Reply(StatusServerError, s))
      case UserUpdated(u) =>
        if fault then Reply(StatusServerError, s)
        else (
          match UpdateUser(s, u.id, UpdatedEmail(u), now)
          case Ok(t) => Reply(StatusOk, t)
          case Err(_) => Reply(StatusServerError, s))
      case UserDeleted(id) =>
        if !Present(id) then Reply(StatusOk, s)
        else if fault then Reply(StatusServerError, s)
        else Reply(StatusOk, DeleteUser(s, id.value))
      case Unhandled(_) => Reply(StatusOk, s)
  }

  /** A request that passed the header check and the verifier, with a healthy database. */
  predicate Accepted(req: Request, verified: bool, fault: bool) {
    HeadersPresent(req) && verified && !fault
  }

  /** `user.created` without a usable primary email is refused, and nothing is written. */
  lemma CreatedWithoutEmailRejected(s: Store, req: Request, verified: bool, now: Timestamp, fault: bool)
    requires HeadersPresent(req) && verified && req.event.UserCreated?
    requires !Present(PrimaryEmail(req.event.user.emailAddresses, req.event.user.primaryEmailAddressId))
    ensures Dispatch(s, req, verified, now, fault) == Reply(StatusBadRequest, s)
  {
  }

  /**
   * `user.created` with a primary email adds exactly one row, with status
   * `free` and onboarding not completed, when neither its id nor its email is
   * taken, and otherwise leaves the store as it was; either way it reports 200.
   */
  lemma CreatedInsertsOnce(s: Store, req: Request, verified: bool, now: Timestamp, fault: bool)
    requires Accepted(req, verified, fault) && req.event.UserCreated?
    requires Present(PrimaryEmail(req.event.user.emailAddresses, req.event.user.primaryEmailAddressId))
    ensures var u := req.event.user;
      var email := PrimaryEmail(u.emailAddresses, u.primaryEmailAddressId).value;
      var r := Dispatch(s, req, verified, now, fault);
      && r.status == StatusOk
      && (u.id !in s.users && !EmailTaken(s.users, email) ==>
            && r.store == s.(users := s.users[u.id := User(u.id, email, Some(Free), false, now, now)])
            && |r.store.users| == |s.users| + 1)
      && (u.id in s.users || EmailTaken(s.users, email) ==> r.store == s)
  {
  }

  /**
   * `user.updated` touches only the row with the event's id: it sets
   * `updatedAt`, replaces the email only when a primary email resolved, and
   * keeps the subscription status, the onboarding flag and every other row.
   * A missing row is no change and 200; an email another row holds is 500 and
   * no change.
   */
  lemma UpdatedTouchesOnlyItsRow(s: Store, req: Request, verified: bool, now: Timestamp, fault: bool)
    requires Valid(s)
    requires Accepted(req, verified, fault) && req.event.UserUpdated?
    ensures var u := req.event.user;
      var r := Dispatch(s, req, verified, now, fault);
      && (u.id !in s.users ==> r == Reply(StatusOk, s))
      && (u.id in s.users ==>
            var old_ := s.users[u.id];
            var email := if UpdatedEmail(u).Some? then UpdatedEmail(u).value else old_.email;
            var t := s.(users := s.users[u.id := old_.(email := email, updatedAt := now)]);
            && (EmailTaken(s.users - {u.id}, email) ==> r == Reply(StatusServerError, s))
            && (!EmailTaken(s.users - {u.id}, email) ==> r == Reply(StatusOk, t) && Valid(t)))
  {
    var u := req.event.user;
    UpdateUserExact(s, u.id, UpdatedEmail(u), now);
  }

  /** `user.deleted` with an id removes that user and, by cascade, everything that references it. */
  lemma DeletedCascades(s: Store, req: Request, verified: bool, now: Timestamp, fault: bool)
    requires Accepted(req, verified, fault) && req.event.UserDeleted?
    ensures var r := Dispatch(s, req, verified, now, fault);
      var id := req.event.deletedId;
      && r.status == StatusOk
      && (!Present(id) ==> r.store == s)
      && (Present(id) ==> r.store == DeleteCascading(s, {id.value}, {}, {}) && id.value !in r.store.users)
  {
  }

  /** Any event type other than the three user events is acknowledged and writes nothing. */
  lemma UnhandledAcknowledged(s: Store, req: Request, verified: bool, now: Timestamp, fault: bool)
    requires HeadersPresent(req) && verified && req.event.Unhandled? && req.event.eventType !in HandledTypes
    ensures Dispatch(s, req, verified, now, fault) == Reply(StatusOk, s)
  {
  }

  /** Only `user.deleted` can reach beyond the users table. */
  lemma OnlyDeleteCascades(s: Store, req: Request, verified: bool, now: Timestamp, fault: bool)
    requires !req.event.UserDeleted?
    ensures var t := Dispatch(s, req, verified, now, fault).store;
      t == s.(users := t.users)
  {
  }

  /** The handler never breaks a constraint of the schema. */
  lemma DispatchKeepsValid(s: Store, req: Request, verified: bool, now: Timestamp, fault: bool)
    requires Valid(s)
    ensures Valid(Dispatch(s, req, verified, now, fault).store)
  {
    if HeadersPresent(req) && verified && !fault {
      match req.event
      case UserCreated(u) =>
        var email := PrimaryEmail(u.emailAddresses, u.primaryEmailAddressId);
        if Present(email) {
          InsertUserExact(s, UserRow(CreatedUserValues(u.id, email.value), now));
        }
      case UserUpdated(u) =>
        UpdateUserExact(s, u.id, UpdatedEmail(u), now);
      case UserDeleted(_) =>
      case Unhandled(_) =>
    }
  }

  /**
   * A redelivery of the same request, at a later clock `now2` and with the
   * database in the same health, gets the same status as the first delivery.
   * A second `user.created` meets its own row and a second `user.deleted`
   * finds nothing, so neither changes the store. A second `user.updated` that
   * finds its row writes the same email again and moves only that row's
   * `updatedAt` to `now2`.
   */
  lemma DispatchRedelivery(s: Store, req: Request, verified: bool, now1: Timestamp, now2: Timestamp, fault: bool)
    ensures var r1 := Dispatch(s, req, verified, now1, fault);
      var r2 := Dispatch(r1.store, req, verified, now2, fault);
      && r2.status == r1.status
      && (!req.event.UserUpdated? ==> r2.store == r1.store)
      && (req.event.UserUpdated? ==>
            var id := req.event.user.id;
            if r1.status == StatusOk && id in r1.store.users
            then r2.store == r1.store.(users := r1.store.users[id := r1.store.users[id].(updatedAt := now2)])
            else r2.store == r1.store)
  {
    var r1 := Dispatch(s, req, verified, now1, fault);
    if HeadersPresent(req) && verified && !fault {
      match req.event
      case UserCreated(u) =>
        var email := PrimaryEmail(u.emailAddresses, u.primaryEmailAddressId);
        if Present(email) {
          var row := UserRow(CreatedUserValues(u.id, email.value), now1);
          if InsertUser(s, row).Ok? {
            assert u.id in r1.store.users;
          }
        }
      case UserUpdated(u) =>
        var e := UpdatedEmail(u);
        if u.id in s.users && UpdateUser(s, u.id, e, now1).Ok? {
          var t := r1.store;
          assert t.users - {u.id} == s.users - {u.id};
          assert t.users[u.id].(email := e.GetOr(t.users[u.id].email), updatedAt := now2)
              == t.users[u.id].(updatedAt := now2);
        }
      case UserDeleted(id) =>
        if Present(id) {
          DeleteUserIdempotent(s, id.value);
        }
      case Unhandled(_) =>
    }
  }

  /** The local database the handler writes to. */
  class Database {
    var store: Store

    constructor (initial: Store)
      ensures store == initial
    {
      store := initial;
    }

    /** `db.insert(users).values(v).onConflictDoNothing()`; `thrown` when the statement raised. */
    method InsertUserOnConflictDoNothing(v: UserValues, now: Timestamp, fault: bool) returns (thrown: bool)
      modifies this
      ensures var r := OnConflictDoNothing(InsertUser(old(store), UserRow(v, now)), old(store));
        && thrown == (fault || r.Err?)
        && store == (if thrown then old(store) else r.value)
    {
      if fault {
        return true;
      }
      var r := OnConflictDoNothing(InsertUser(store, UserRow(v, now)), store);
      if r.Err? {
        return true;
      }
      store := r.value;
      thrown := false;
    }

    /** `db.update(users).set({email, updatedAt}).where(eq(users.clerkUserId, id))`. */
    method UpdateUser(id: ClerkUserId, email: Option<string>, now: Timestamp, fault: bool) returns (thrown: bool)
      modifies this
      ensures var r := Schema.UpdateUser(old(store), id, email, now);
        && thrown == (fault || r.Err?)
        && store == (if thrown then old(store) else r.value)
    {
      if fault {
        return true;
      }
      var r := Schema.UpdateUser(store, id, email, now);
      if r.Err? {
        return true;
      }
      store := r.value;
      thrown := false;
    }

    /** `db.delete(users).where(eq(users.clerkUserId, id))`, with the schema's cascades. */
    method DeleteUser(id: ClerkUserId, fault: bool) returns (thrown: bool)
      modifies this
      ensures thrown == fault
      ensures store == if fault then old(store) else Schema.DeleteUser(old(store), id)
    {
      if fault {
        return true;
      }
      store := Schema.DeleteUser(store, id);
      thrown := false;
    }

    /** `POST`: reject on a missing header or a failed verification, then handle the event. */
    method Post(req: Request, verified: bool, now: Timestamp, fault: bool) returns (status: int)
      modifies this
      ensures var r := Dispatch(old(store), req, verified, now, fault);
        status == r.status && store == r.store
    {
      if !Present(req.svixId) || !Present(req.svixTimestamp) || !Present(req.svixSignature) {
        return StatusBadRequest;
      }
      if !verified {
        return StatusBadRequest;
      }
      match req.event {
        case UserCreated(u) =>
          var email := PrimaryEmail(u.emailAddresses, u.primaryEmailAddressId);
          if !Present(email) {
            return StatusBadRequest;
          }
          var thrown := InsertUserOnConflictDoNothing(CreatedUserValues(u.id, email.value), now, fault);
          if thrown {
            return StatusServerError;
          }
        case UserUpdated(u) =>
          var thrown := UpdateUser(u.id, UpdatedEmail(u), now, fault);
          if thrown {
            return StatusServerError;
          }
        case UserDeleted(id) =>
          if Present(id) {
            var thrown := DeleteUser(id.value, fault);
            if thrown {
              return StatusServerError;
            }
          }
        case Unhandled(_) =>
      }
      return StatusOk;
    }
  }
}
