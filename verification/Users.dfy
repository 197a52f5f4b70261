/** The user table and its two indexes, by login name and by e-mail address, both in lower case. */
module Users {
  import opened Models
  import Text

  datatype User = User(username: string, email: string)

  function Low(s: string): string { Text.Lower(s) }

  datatype Table = Table(users: map<Id, User>, byName: map<string, Id>, byEmail: map<string, Id>) {
    function Create(id: Id, u: User): (Table, Outcome) {
      if Low(u.username) in byName || Low(u.email) in byEmail then (this, Fail(ErrConflict))
      else (Table(users[id := u], byName[Low(u.username) := id], byEmail[Low(u.email) := id]), Done)
    }

    predicate EmailTaken(id: Id, u: User) { Low(u.email) in byEmail && byEmail[Low(u.email)] != id }

    predicate NameTaken(id: Id, u: User) { Low(u.username) in byName && byName[Low(u.username)] != id }

    /** The e-mail index follows at once, before the name has been looked at. */
    function MoveEmail(id: Id, from: string, email: string): Table {
      if from == email then this
      else if email == "" then this.(byEmail := byEmail - {from})
      else this.(byEmail := (byEmail - {from})[email := id])
    }

    function MoveName(id: Id, from: string, name: string): Table {
      if from == name then this else this.(byName := (byName - {from})[name := id])
    }

    function Update(id: Id, u: User): (Table, Outcome) {
      if id !in users then (this, Fail(ErrNotFound))
      else
        var was := users[id];
        var emailMoves, nameMoves := Low(was.email) != Low(u.email), Low(was.username) != Low(u.username);
        if emailMoves && EmailTaken(id, u) then (this, Fail(ErrConflict))
        else
          var t := MoveEmail(id, Low(was.email), Low(u.email));
          if nameMoves && NameTaken(id, u) then (t, Fail(ErrConflict))
          else
            var s := t.MoveName(id, Low(was.username), Low(u.username));
            (s.(users := s.users[id := u]), Done)
    }
  }

  ghost predicate NameIndexed(t: Table) {
    && (forall n :: n in t.byName ==> t.byName[n] in t.users && Low(t.users[t.byName[n]].username) == n)
    && (forall id :: id in t.users ==> HasName(t, id))
  }

  ghost predicate EmailIndexed(t: Table) {
    && (forall e :: e in t.byEmail && e != "" ==> t.byEmail[e] in t.users && Low(t.users[t.byEmail[e]].email) == e)
    && (forall id :: id in t.users ==> HasEmail(t, id))
  }

  /** Every user is found under its name, and under its address unless that is empty; nobody is found otherwise. */
  ghost predicate Indexed(t: Table) { NameIndexed(t) && EmailIndexed(t) }

  predicate HasName(t: Table, id: Id)
    requires id in t.users
  {
    var n := Low(t.users[id].username); n in t.byName && t.byName[n] == id
  }

  predicate HasEmail(t: Table, id: Id)
    requires id in t.users
  {
    var e := Low(t.users[id].email); e != "" ==> e in t.byEmail && t.byEmail[e] == id
  }

  lemma CreateKeepsIndex(t: Table, id: Id, u: User)
    requires Indexed(t) && id !in t.users
    ensures Indexed(t.Create(id, u).0)
  {
    hide Low;
    var s := t.Create(id, u).0;
    forall j | j in s.users ensures HasName(s, j) && HasEmail(s, j) {
      assert j != id ==> HasName(t, j) && HasEmail(t, j);
    }
  }

  /** The update moves the address and then finds the new name taken. */
  predicate HalfDone(t: Table, id: Id, u: User) {
    && id in t.users
    && Low(t.users[id].email) != Low(u.email) && !t.EmailTaken(id, u)
    && Low(t.users[id].username) != Low(u.username) && t.NameTaken(id, u)
  }

  lemma HalfDoneBreaks(t: Table, id: Id, u: User)
    requires Indexed(t) && HalfDone(t, id, u)
    ensures !Indexed(t.Update(id, u).0) && t.Update(id, u).1 == Fail(ErrConflict) && t.Update(id, u).0 != t
  {
    hide Low;
    var s := t.Update(id, u).0;
    var from, email := Low(t.users[id].email), Low(u.email);
    assert HasEmail(t, id);
    if email != "" {
      assert email in s.byEmail && s.byEmail[email] == id;
    } else {
      assert from !in s.byEmail;
      assert !HasEmail(s, id);
    }
  }

  lemma UpdateKeepsNames(t: Table, id: Id, u: User)
    requires NameIndexed(t) && t.Update(id, u).1 == Done
    ensures NameIndexed(t.Update(id, u).0)
  {
    hide Low;
    var s := t.Update(id, u).0;
    assert HasName(t, id);
    forall j | j in s.users ensures HasName(s, j) {
      assert HasName(t, j);
    }
  }

  lemma UpdateKeepsEmails(t: Table, id: Id, u: User)
    requires EmailIndexed(t) && t.Update(id, u).1 == Done
    ensures EmailIndexed(t.Update(id, u).0)
  {
    hide Low;
    var s := t.Update(id, u).0;
    assert HasEmail(t, id);
    forall j | j in s.users ensures HasEmail(s, j) {
      assert HasEmail(t, j);
      if j != id {
        assert s.users[j] == t.users[j];
      }
    }
  }

  /** An update keeps the indexes right exactly when it does not change the address while asking for a name that is taken. */
  lemma UpdateKeepsIndexExactly(t: Table, id: Id, u: User)
    requires Indexed(t)
    ensures Indexed(t.Update(id, u).0) <==> !HalfDone(t, id, u)
  {
    if HalfDone(t, id, u) {
      HalfDoneBreaks(t, id, u);
    } else if t.Update(id, u).1 == Done {
      UpdateKeepsNames(t, id, u);
      UpdateKeepsEmails(t, id, u);
      hide Low;
    }
  }

  /** While the indexes are right, both lookups find exactly the user with that name or address. */
  lemma LookupsAreExact(t: Table, id: Id, username: string, email: string)
    requires Indexed(t) && email != ""
    ensures (Low(username) in t.byName && t.byName[Low(username)] == id) <==> (id in t.users && Low(t.users[id].username) == Low(username))
    ensures (Low(email) in t.byEmail && t.byEmail[Low(email)] == id) <==> (id in t.users && Low(t.users[id].email) == Low(email))
  {
    LowIsEmpty(email);
    hide Low;
    if id in t.users {
      assert HasName(t, id) && HasEmail(t, id);
    }
  }

  lemma LowIsEmpty(s: string)
    ensures Low(s) == "" <==> s == ""
  {
    assert |Low(s)| == |s|;
  }

  /** Somebody else has the name, or the address, but for case. */
  predicate SameName(t: Table, id: Id, name: string) {
    exists j :: j in t.users && j != id && Text.Lower(t.users[j].username) == Text.Lower(name)
  }

  predicate SameEmail(t: Table, id: Id, email: string) {
    exists j :: j in t.users && j != id && Text.Lower(t.users[j].email) == Text.Lower(email)
  }

  lemma TakenMeans(t: Table, id: Id, u: User)
    requires Indexed(t) && u.email != ""
    ensures t.NameTaken(id, u) <==> SameName(t, id, u.username)
    ensures t.EmailTaken(id, u) <==> SameEmail(t, id, u.email)
  {
    LowIsEmpty(u.email);
    hide Text.Lower;
    if t.NameTaken(id, u) {
      assert Text.Lower(t.users[t.byName[Low(u.username)]].username) == Text.Lower(u.username);
    }
    if SameName(t, id, u.username) {
      var j :| j in t.users && j != id && Text.Lower(t.users[j].username) == Text.Lower(u.username);
      assert HasName(t, j);
    }
    if t.EmailTaken(id, u) {
      assert Text.Lower(t.users[t.byEmail[Low(u.email)]].email) == Text.Lower(u.email);
    }
    if SameEmail(t, id, u.email) {
      var j :| j in t.users && j != id && Text.Lower(t.users[j].email) == Text.Lower(u.email);
      assert HasEmail(t, j);
    }
  }

  /** A user with an address is accepted exactly when both name and address are new, whatever their case. */
  lemma CreateExactly(t: Table, id: Id, u: User)
    requires Indexed(t) && id !in t.users && u.email != ""
    ensures var (s, r) := t.Create(id, u);
            && (r == Done <==> !SameName(t, id, u.username) && !SameEmail(t, id, u.email))
            && s.users == (if r == Done then t.users[id := u] else t.users)
  {
    TakenMeans(t, id, u);
    hide Low, SameName, SameEmail;
    assert Low(u.username) in t.byName ==> t.byName[Low(u.username)] != id;
  }

  /** An update to a user with an address is accepted exactly when nobody else has the name or the address. */
  lemma UpdateExactly(t: Table, id: Id, u: User)
    requires Indexed(t) && id in t.users && u.email != ""
    ensures var (s, r) := t.Update(id, u);
            && (r == Done <==> !SameName(t, id, u.username) && !SameEmail(t, id, u.email))
            && s.users == (if r == Done then t.users[id := u] else t.users)
  {
    TakenMeans(t, id, u);
    LowIsEmpty(u.email);
    hide Low, SameName, SameEmail;
    assert HasName(t, id) && HasEmail(t, id);
  }

  class UserStore {
    var users: map<Id, User>
    var userByName: map<string, Id>
    var userByEmail: map<string, Id>

    function View(): Table
      reads this
    {
      Table(users, userByName, userByEmail)
    }

    constructor ()
      ensures View() == Table(map[], map[], map[]) && Indexed(View())
    {
      users, userByName, userByEmail := map[], map[], map[];
    }

    method CreateUser(id: Id, u: User) returns (r: Outcome)
      modifies this
      ensures (View(), r) == old(View()).Create(id, u)
    {
      var name, email := Low(u.username), Low(u.email);
      if name in userByName {
        return Fail(ErrConflict);
      }
      if email in userByEmail {
        return Fail(ErrConflict);
      }
      users := users[id := u];
      userByName := userByName[name := id];
      userByEmail := userByEmail[email := id];
      return Done;
    }

    method UpdateUser(id: Id, u: User) returns (r: Outcome)
      modifies this
      ensures (View(), r) == old(View()).Update(id, u)
    {
      if id !in users {
        return Fail(ErrNotFound);
      }
      var cur := users[id];
      var oldEmail, newEmail := Low(cur.email), Low(u.email);
      if oldEmail != newEmail {
        if newEmail in userByEmail && userByEmail[newEmail] != id {
          return Fail(ErrConflict);
        }
        userByEmail := userByEmail - {oldEmail};
        if newEmail != "" {
          userByEmail := userByEmail[newEmail := id];
        }
      }
      var oldName, newName := Low(cur.username), Low(u.username);
      if oldName != newName {
        if newName in userByName && userByName[newName] != id {
          return Fail(ErrConflict);
        }
        userByName := userByName - {oldName};
        userByName := userByName[newName := id];
      }
      users := users[id := u];
      return Done;
    }
  }
}
