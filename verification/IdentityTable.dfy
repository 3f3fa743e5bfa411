/** The `auth_identity` table under its two unique constraints, and `IdentityService` over it.
    A row is identified by its uuid; (provider, subject) and the KIS user are each unique. */
module IdentityTable {
  import opened Wrappers
  import opened Records

  datatype Status = Active | Revoked

  datatype Row = Row(
    provider: string,
    subject: string,
    user: string,
    email: Option<string>,
    emailVerified: bool,
    status: Status)

  type Table = map<Id, Row>

  /** The arguments of `IdentityService.link`. */
  datatype LinkArgs = LinkArgs(
    provider: string,
    subject: string,
    user: string,
    email: Option<string>,
    emailVerified: bool)

  datatype LinkResult = Linked(id: Id) | AlreadyLinked

  predicate HasKey(r: Row, provider: string, subject: string) {
    r.provider == provider && r.subject == subject
  }

  /** Row `id` is there and carries exactly the triple of `a`. */
  predicate HoldsTriple(t: Table, id: Id, a: LinkArgs) {
    id in t && HasKey(t[id], a.provider, a.subject) && t[id].user == a.user
  }

  /** The two unique constraints: (provider, subject) to user is a partial injection. */
  ghost predicate Unique(t: Table) {
    forall i, j {:trigger t[i], t[j]} :: i in t && j in t && i != j ==>
      t[i].user != t[j].user && (t[i].provider != t[j].provider || t[i].subject != t[j].subject)
  }

  /** SELECT by (provider, subject). */
  ghost function FindByKey(t: Table, provider: string, subject: string): (r: Option<Id>)
    ensures r.Some? ==> r.value in t && t[r.value].provider == provider && t[r.value].subject == subject
    ensures r.None? ==> forall i :: i in t ==> t[i].provider != provider || t[i].subject != subject
  {
    if i :| i in t && HasKey(t[i], provider, subject) then Some(i) else None
  }

  /** Inserting `a` would violate one of the unique constraints. */
  ghost predicate Conflicts(t: Table, a: LinkArgs) {
    exists i :: i in t && (HasKey(t[i], a.provider, a.subject) || t[i].user == a.user)
  }

  function Inserted(t: Table, id: Id, a: LinkArgs): Table {
    t[id := Row(a.provider, a.subject, a.user, a.email, a.emailVerified, Active)]
  }

  /** The UPDATE of a repeated link: the e-mail columns only. */
  function Refreshed(t: Table, id: Id, a: LinkArgs): Table
    requires id in t
  {
    t[id := t[id].(email := a.email, emailVerified := a.emailVerified)]
  }

  /** What `link` answers, and the table it leaves, when nothing happens between its SELECT and its
      UPDATE or INSERT. */
  ghost function LinkAlone(t: Table, a: LinkArgs, uuid: Id): (LinkResult, Table) {
    match FindByKey(t, a.provider, a.subject)
    case Some(id) => if t[id].user == a.user then (Linked(id), Refreshed(t, id, a)) else (AlreadyLinked, t)
    case None => if Conflicts(t, a) then (AlreadyLinked, t) else (Linked(uuid), Inserted(t, uuid, a))
  }

  predicate IsTriple(rows: Table, i: Id, provider: string, subject: string, user: string) {
    i in rows && rows[i].provider == provider && rows[i].subject == subject && rows[i].user == user
  }

  /** A `link` call: refused, without effect, when a row has its key or its user and none has both;
      otherwise the row of its triple has its e-mail columns, and no other row has changed. */
  ghost predicate LinkCallComesTo(a: LinkArgs, rows: Table, result: LinkResult, rows': Table) {
    if (exists i :: i in rows && ((rows[i].provider == a.provider && rows[i].subject == a.subject) || rows[i].user == a.user))
       && !(exists i :: IsTriple(rows, i, a.provider, a.subject, a.user))
    then result == AlreadyLinked && rows' == rows
    else
      && result.Linked? && IsTriple(rows', result.id, a.provider, a.subject, a.user)
      && rows'[result.id].email == a.email && rows'[result.id].emailVerified == a.emailVerified
      && rows'[result.id].status == (if result.id in rows then rows[result.id].status else Active)
      && (result.id in rows ==> IsTriple(rows, result.id, a.provider, a.subject, a.user))
      && (forall i {:trigger rows'[i]} {:trigger i in rows'} :: i in rows' && i != result.id ==> i in rows && rows'[i] == rows[i])
      && (forall i {:trigger i in rows} :: i in rows ==> i in rows')
  }

  /** Later tables keep every row's id, key and owner. */
  ghost predicate Keeps(t: Table, t': Table) {
    forall i {:trigger i in t} {:trigger t[i]} {:trigger t'[i]} :: i in t ==>
      && i in t'
      && t'[i].provider == t[i].provider
      && t'[i].subject == t[i].subject
      && t'[i].user == t[i].user
  }

  /** Under the constraints the SELECT has one possible answer. */
  lemma FindByKeyIs(t: Table, provider: string, subject: string, id: Id)
    requires Unique(t) && id in t && HasKey(t[id], provider, subject)
    ensures FindByKey(t, provider, subject) == Some(id)
  {
    var r := FindByKey(t, provider, subject);
    assert r.Some?;
    assert HasKey(t[id], t[r.value].provider, t[r.value].subject);
  }

  lemma RefreshedComesTo(t: Table, a: LinkArgs, id: Id)
    requires Unique(t) && HoldsTriple(t, id, a)
    ensures var t' := Refreshed(t, id, a); Unique(t') && Keeps(t, t') && LinkCallComesTo(a, t, Linked(id), t')
  {
    assert IsTriple(t, id, a.provider, a.subject, a.user);
  }

  lemma InsertedComesTo(t: Table, a: LinkArgs, uuid: Id)
    requires Unique(t) && uuid !in t && !Conflicts(t, a)
    ensures var t' := Inserted(t, uuid, a); Unique(t') && Keeps(t, t') && LinkCallComesTo(a, t, Linked(uuid), t')
  {
  }

  /** The one way to answer a call keeps the constraints and every row's key and owner. */
  lemma LinkAloneComesTo(t: Table, a: LinkArgs, uuid: Id)
    requires Unique(t) && uuid !in t
    ensures var (r, t') := LinkAlone(t, a, uuid);
            Unique(t') && Keeps(t, t') && LinkCallComesTo(a, t, r, t') && (r.Linked? && r.id !in t ==> r.id == uuid)
  {
    var found := FindByKey(t, a.provider, a.subject);
    if found.Some? && t[found.value].user == a.user {
      RefreshedComesTo(t, a, found.value);
    } else if found.Some? {
      forall i ensures !IsTriple(t, i, a.provider, a.subject, a.user) {
        if IsTriple(t, i, a.provider, a.subject, a.user) {
          FindByKeyIs(t, a.provider, a.subject, i);
        }
      }
    } else if !Conflicts(t, a) {
      InsertedComesTo(t, a, uuid);
    }
  }

  class IdentityService {
    var rows: Table

    constructor ()
      ensures rows == map[] && Unique(rows)
    {
      rows := map[];
    }

    method FindByProviderSubject(provider: string, subject: string) returns (r: Option<Id>)
      requires Unique(rows)
      ensures r == FindByKey(rows, provider, subject)
      ensures r.Some? ==> r.value in rows && rows[r.value].provider == provider && rows[r.value].subject == subject
      ensures r.None? ==> forall i :: i in rows ==> rows[i].provider != provider || rows[i].subject != subject
    {
      if i: Id :| i in rows && HasKey(rows[i], provider, subject) {
        r := Some(i);
        FindByKeyIs(rows, provider, subject, i);
      } else {
        r := None;
      }
    }

    /** The row of an id names its identity: its key leads back to this id, and no other row has its key
        or its user. */
    method FindById(id: Id) returns (r: Option<Row>)
      requires Unique(rows)
      ensures r.None? <==> id !in rows
      ensures r.Some? ==> rows[id] == r.value && FindByKey(rows, r.value.provider, r.value.subject) == Some(id)
      ensures r.Some? ==> forall i :: i in rows && rows[i].user == r.value.user ==> i == id
      ensures r.Some? ==> forall i :: i in rows && rows[i].provider == r.value.provider && rows[i].subject == r.value.subject ==> i == id
    {
      if id in rows {
        r := Some(rows[id]);
        FindByKeyIs(rows, rows[id].provider, rows[id].subject, id);
      } else {
        r := None;
      }
    }

    /** `link` run on its own: SELECT, then UPDATE or INSERT. The answer is `Linked` exactly when
        the triple is already a row or neither its key nor its user is taken; a refusal changes
        nothing; a repeat touches only the e-mail columns of the row it finds. */
    method Link(a: LinkArgs, uuid: Id) returns (r: LinkResult)
      requires Unique(rows) && uuid !in rows
      modifies this
      ensures Unique(rows) && Keeps(old(rows), rows)
      ensures (r, rows) == LinkAlone(old(rows), a, uuid)
      ensures LinkCallComesTo(a, old(rows), r, rows)
      ensures r.Linked? && r.id !in old(rows) ==> r.id == uuid
    {
      LinkAloneComesTo(rows, a, uuid);
      var existing := FindByProviderSubject(a.provider, a.subject);
      if existing.Some? {
        var id := existing.value;
        if rows[id].user != a.user {
          return AlreadyLinked;
        }
        rows := Refreshed(rows, id, a);
        return Linked(id);
      }
      if i: Id :| i in rows && (HasKey(rows[i], a.provider, a.subject) || rows[i].user == a.user) {
        return AlreadyLinked;
      }
      rows := Inserted(rows, uuid, a);
      r := Linked(uuid);
    }
  }
}
