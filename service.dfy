/** The contact service: matching an uploaded contact list against the user
    directory and saving one relation per match, and the two read paths
    (friends and display name). The store behind the `ContactStore` interface is
    modelled in memory, with failures that can be injected per call. */
module Service {
  import opened Entities

  /** A call `SaveContacts` made on the store, in the order the store received it. */
  datatype StoreCall = LookupCall(number: string) | SaveCall(relation: Relation)

  /** The result of the first phase of `SaveContacts`: the relations collected
      for the matched contacts, or the first lookup error. */
  datatype Resolution = Resolved(relations: seq<Relation>) | LookupFailed(error: Error)

  /** What the in-memory store answers for a name it does not know. */
  const ErrNoRows: Error := Error("no rows in result set")

  // ---------------------------------------------------------------------------
  // Specification functions.

  /** The in-memory directory answering lookup call number `call`: the error
      injected for that call, else the user who owns the number, else no user. */
  function LookupIn(users: map<string, User>, failures: map<nat, Error>, call: nat, number: string): (r: UserLookup)
  {
    if call in failures then LookupError(failures[call])
    else if number in users then Found(users[number])
    else NoUser
  }

  function LookupCalls(contacts: seq<Contact>): (calls: seq<StoreCall>)
    ensures |calls| == |contacts|
  {
    seq(|contacts|, i requires 0 <= i < |contacts| => LookupCall(contacts[i].phoneNumber))
  }

  function SaveCalls(relations: seq<Relation>): (calls: seq<StoreCall>)
    ensures |calls| == |relations|
  {
    seq(|relations|, i requires 0 <= i < |relations| => SaveCall(relations[i]))
  }

  /** The first phase, contact by contact in input order, the lookups being
      calls number `start`, `start + 1`, ...: an error stops it, a contact
      without a user is skipped, a match adds the relation `userID -> matched user`. */
  function Resolve(users: map<string, User>, failures: map<nat, Error>, start: nat, userID: int,
                   contacts: seq<Contact>): (r: Resolution)
    ensures r.Resolved? ==> |r.relations| <= |contacts|
    ensures r.Resolved? ==> forall i :: 0 <= i < |r.relations| ==> r.relations[i].userID == userID
    decreases |contacts|
  {
    if contacts == [] then Resolved([])
    else
      match Resolve(users, failures, start, userID, contacts[..|contacts| - 1])
      case LookupFailed(e) => LookupFailed(e)
      case Resolved(rs) =>
        match LookupIn(users, failures, start + |contacts| - 1, contacts[|contacts| - 1].phoneNumber)
        case LookupError(e) => LookupFailed(e)
        case NoUser => Resolved(rs)
        case Found(u) => Resolved(rs + [Relation(userID, u.userID)])
  }

  /** Of `n` calls numbered from `start`, how many succeed before the first one
      injected to fail (`n` when none fails). Used for lookups and for saves. */
  function FirstFailure(failures: map<nat, Error>, start: nat, n: nat): (k: nat)
    ensures k <= n
    ensures forall t :: start <= t < start + k ==> t !in failures
    ensures k < n ==> start + k in failures
    decreases n
  {
    if n == 0 || start in failures then 0
    else 1 + FirstFailure(failures, start + 1, n - 1)
  }

  /** Reference definition: the users owning the contacts' numbers, in contact
      order, one per contact, duplicates kept. */
  function Matched(users: map<string, User>, contacts: seq<Contact>): (r: seq<User>) {
    if contacts == [] then []
    else
      (if contacts[0].phoneNumber in users then [users[contacts[0].phoneNumber]] else [])
      + Matched(users, contacts[1..])
  }

  function RelationsTo(userID: int, targets: seq<User>): (rs: seq<Relation>)
    ensures |rs| == |targets|
  {
    seq(|targets|, i requires 0 <= i < |targets| => Relation(userID, targets[i].userID))
  }

  // ---------------------------------------------------------------------------
  // Lemmas about the specification.

  /** The first phase fails exactly when some lookup call fails, and then with
      the error of the first failing call. */
  lemma {:induction false} ResolveFailure(users: map<string, User>, failures: map<nat, Error>,
                                          start: nat, userID: int, contacts: seq<Contact>)
    ensures var k := FirstFailure(failures, start, |contacts|);
            && (Resolve(users, failures, start, userID, contacts).LookupFailed? <==> k < |contacts|)
            && (k < |contacts| ==>
                  Resolve(users, failures, start, userID, contacts) == LookupFailed(failures[start + k]))
    decreases |contacts|
  {
    if contacts != [] {
      var n := |contacts|;
      ResolveFailure(users, failures, start, userID, contacts[..n - 1]);
      var k := FirstFailure(failures, start, n - 1);
      var k' := FirstFailure(failures, start, n);
      if k < n - 1 {
        assert k' == k;
      } else if start + n - 1 in failures {
        assert k' == n - 1;
      } else {
        assert k' == n;
      }
    }
  }

  /** A failure in a prefix of the contacts is the failure of the whole list. */
  lemma {:induction false} PrefixFailureSticks(users: map<string, User>, failures: map<nat, Error>, start: nat,
                                               userID: int, contacts: seq<Contact>, n: nat, e: Error)
    requires n <= |contacts|
    requires Resolve(users, failures, start, userID, contacts[..n]) == LookupFailed(e)
    ensures Resolve(users, failures, start, userID, contacts) == LookupFailed(e)
    decreases |contacts| - n
  {
    if n == |contacts| {
      assert contacts[..n] == contacts;
    } else {
      var init := contacts[..|contacts| - 1];
      assert init[..n] == contacts[..n];
      PrefixFailureSticks(users, failures, start, userID, init, n, e);
    }
  }

  /** Matching distributes over concatenation: the matches of an earlier block of
      contacts come before those of a later block. */
  lemma {:induction false} MatchedAppend(users: map<string, User>, a: seq<Contact>, b: seq<Contact>)
    ensures Matched(users, a + b) == Matched(users, a) + Matched(users, b)
    decreases |a|
  {
    if a != [] {
      assert (a + b)[0] == a[0];
      assert (a + b)[1..] == a[1..] + b;
      MatchedAppend(users, a[1..], b);
    } else {
      assert a + b == b;
    }
  }

  /** A user is matched exactly when some contact's number belongs to them. */
  lemma {:induction false} MatchedMembers(users: map<string, User>, contacts: seq<Contact>)
    ensures forall u :: u in Matched(users, contacts) <==>
      exists i :: 0 <= i < |contacts| && contacts[i].phoneNumber in users && users[contacts[i].phoneNumber] == u
    decreases |contacts|
  {
    if contacts != [] {
      MatchedMembers(users, contacts[1..]);
      forall u | u in Matched(users, contacts)
        ensures exists i :: 0 <= i < |contacts| && contacts[i].phoneNumber in users
                            && users[contacts[i].phoneNumber] == u
      {
        if !(contacts[0].phoneNumber in users && users[contacts[0].phoneNumber] == u) {
          assert u in Matched(users, contacts[1..]);
          var i :| 0 <= i < |contacts[1..]| && contacts[1..][i].phoneNumber in users
                   && users[contacts[1..][i].phoneNumber] == u;
          assert contacts[i + 1] == contacts[1..][i];
        }
      }
      forall u, i | 0 <= i < |contacts| && contacts[i].phoneNumber in users && users[contacts[i].phoneNumber] == u
        ensures u in Matched(users, contacts)
      {
        if i > 0 {
          assert contacts[1..][i - 1] == contacts[i];
        }
      }
    }
  }

  /** When no lookup fails, the first phase collects one relation per matched
      contact, in contact order, each from `userID` to the matched user. */
  lemma {:induction false} ResolveMatches(users: map<string, User>, failures: map<nat, Error>, start: nat,
                                          userID: int, contacts: seq<Contact>)
    requires forall t :: start <= t < start + |contacts| ==> t !in failures
    ensures Resolve(users, failures, start, userID, contacts) == Resolved(RelationsTo(userID, Matched(users, contacts)))
    decreases |contacts|
  {
    if contacts != [] {
      var n := |contacts|;
      var init := contacts[..n - 1];
      var last := contacts[n - 1];
      ResolveMatches(users, failures, start, userID, init);
      assert init + [last] == contacts;
      MatchedAppend(users, init, [last]);
      assert [last][1..] == [];
      var before := Matched(users, init);
      if last.phoneNumber in users {
        assert Matched(users, contacts) == before + [users[last.phoneNumber]];
        assert RelationsTo(userID, before + [users[last.phoneNumber]])
            == RelationsTo(userID, before) + [Relation(userID, users[last.phoneNumber].userID)];
      } else {
        assert Matched(users, contacts) == before;
      }
    }
  }

  // ---------------------------------------------------------------------------
  // The store and the service.

  /** The `ContactStore` in memory. The directory, the injected failures and the
      friend and name answers are fixed; relations are only ever appended; every
      lookup and save is counted and recorded in `log`. */
  class MemoryStore {
    var users: map<string, User>
    /** How many times `FindUserByPhone` has been called. */
    var lookupCalls: nat
    /** Call number of `FindUserByPhone` (counting from 0) to the error it fails with. */
    var lookupFailures: map<nat, Error>
    var relations: seq<Relation>
    /** How many times `SaveRelation` has been called. */
    var saveCalls: nat
    /** Call number of `SaveRelation` (counting from 0) to the error it fails with. */
    var saveFailures: map<nat, Error>
    var friendLists: map<int, seq<Friend>>
    var names: map<int, string>
    /** User id to the error that `FindFriends` and `GetName` fail with. */
    var readFailures: map<int, Error>
    var log: seq<StoreCall>

    constructor (users: map<string, User>, lookupFailures: map<nat, Error>,
                 saveFailures: map<nat, Error>, friendLists: map<int, seq<Friend>>,
                 names: map<int, string>, readFailures: map<int, Error>)
      ensures this.users == users && this.lookupFailures == lookupFailures
      ensures this.saveFailures == saveFailures && this.friendLists == friendLists
      ensures this.names == names && this.readFailures == readFailures
      ensures relations == [] && lookupCalls == 0 && saveCalls == 0 && log == []
    {
      this.users := users;
      this.lookupFailures := lookupFailures;
      this.saveFailures := saveFailures;
      this.friendLists := friendLists;
      this.names := names;
      this.readFailures := readFailures;
      relations := [];
      lookupCalls := 0;
      saveCalls := 0;
      log := [];
    }

    /** Fails if this call is one injected to fail; otherwise answers from the
        directory. */
    method FindUserByPhone(number: string) returns (r: UserLookup)
      modifies this`log, this`lookupCalls
      ensures log == old(log) + [LookupCall(number)]
      ensures lookupCalls == old(lookupCalls) + 1
      ensures old(lookupCalls) in lookupFailures ==> r == LookupError(lookupFailures[old(lookupCalls)])
      ensures old(lookupCalls) !in lookupFailures ==>
        r == (if number in users then Found(users[number]) else NoUser)
    {
      log := log + [LookupCall(number)];
      r := LookupIn(users, lookupFailures, lookupCalls, number);
      lookupCalls := lookupCalls + 1;
    }

    /** Appends the relation, unless this call is one injected to fail. */
    method SaveRelation(relation: Relation) returns (err: Option<Error>)
      modifies this`log, this`relations, this`saveCalls
      ensures log == old(log) + [SaveCall(relation)]
      ensures saveCalls == old(saveCalls) + 1
      ensures old(saveCalls) in saveFailures ==>
        err == Some(saveFailures[old(saveCalls)]) && relations == old(relations)
      ensures old(saveCalls) !in saveFailures ==>
        err == None && relations == old(relations) + [relation]
    {
      log := log + [SaveCall(relation)];
      if saveCalls in saveFailures {
        err := Some(saveFailures[saveCalls]);
      } else {
        err := None;
        relations := relations + [relation];
      }
      saveCalls := saveCalls + 1;
    }

    function FriendsOf(userID: int): (r: Result<seq<Friend>>)
      reads this
    {
      if userID in readFailures then Failure(readFailures[userID])
      else if userID in friendLists then Success(friendLists[userID])
      else Success([])
    }

    function NameOf(userID: int): (r: Result<string>)
      reads this
    {
      if userID in readFailures then Failure(readFailures[userID])
      else if userID in names then Success(names[userID])
      else Failure(ErrNoRows)
    }

    method FindFriends(userID: int) returns (r: Result<seq<Friend>>)
      ensures r == FriendsOf(userID)
    {
      r := FriendsOf(userID);
    }

    method GetName(userID: int) returns (r: Result<string>)
      ensures r == NameOf(userID)
    {
      r := NameOf(userID);
    }
  }

  class ContactService {
    const store: MemoryStore

    constructor (store: MemoryStore)
      ensures this.store == store
    {
      this.store := store;
    }

    /** Looks every contact up, then saves the collected relations one by one.
        Every lookup happens before any save, and there is no transaction: a
        failing save leaves the earlier ones saved and the later ones unattempted. */
    method SaveContacts(userID: int, contacts: seq<Contact>) returns (err: Option<Error>)
      modifies store`log, store`lookupCalls, store`relations, store`saveCalls
      ensures var rsv := Resolve(old(store.users), old(store.lookupFailures), old(store.lookupCalls), userID, contacts);
              var k := FirstFailure(old(store.lookupFailures), old(store.lookupCalls), |contacts|);
              rsv.LookupFailed? ==>
                && k < |contacts|
                && err == Some(rsv.error)
                && store.log == old(store.log) + LookupCalls(contacts[..k + 1])
                && store.lookupCalls == old(store.lookupCalls) + k + 1
                && store.relations == old(store.relations)
                && store.saveCalls == old(store.saveCalls)
      ensures var rsv := Resolve(old(store.users), old(store.lookupFailures), old(store.lookupCalls), userID, contacts);
              rsv.Resolved? ==>
                var rs := rsv.relations;
                var s := FirstFailure(old(store.saveFailures), old(store.saveCalls), |rs|);
                var tried := if s < |rs| then s + 1 else s;
                && store.log == old(store.log) + LookupCalls(contacts) + SaveCalls(rs[..tried])
                && store.lookupCalls == old(store.lookupCalls) + |contacts|
                && store.relations == old(store.relations) + rs[..s]
                && store.saveCalls == old(store.saveCalls) + tried
                && err == (if s < |rs| then Some(old(store.saveFailures)[old(store.saveCalls) + s]) else None)
    {
      var resolution := MatchContacts(userID, contacts);
      if resolution.LookupFailed? {
        return Some(resolution.error);
      }
      err := SaveRelations(resolution.relations);
    }

    /** The first loop of `SaveContacts`: one lookup per contact, in order,
        collecting a relation for each contact that has a user. */
    method MatchContacts(userID: int, contacts: seq<Contact>) returns (resolution: Resolution)
      modifies store`log, store`lookupCalls
      ensures resolution == Resolve(store.users, store.lookupFailures, old(store.lookupCalls), userID, contacts)
      ensures var k := FirstFailure(store.lookupFailures, old(store.lookupCalls), |contacts|);
              && (resolution.LookupFailed? ==>
                    && k < |contacts|
                    && store.log == old(store.log) + LookupCalls(contacts[..k + 1])
                    && store.lookupCalls == old(store.lookupCalls) + k + 1)
              && (resolution.Resolved? ==>
                    && store.log == old(store.log) + LookupCalls(contacts)
                    && store.lookupCalls == old(store.lookupCalls) + |contacts|)
    {
      var relations: seq<Relation> := [];
      var i := 0;
      while i < |contacts|
        invariant 0 <= i <= |contacts|
        invariant store.lookupCalls == old(store.lookupCalls) + i
        invariant Resolve(store.users, store.lookupFailures, old(store.lookupCalls), userID, contacts[..i]) == Resolved(relations)
        invariant forall t :: old(store.lookupCalls) <= t < old(store.lookupCalls) + i ==> t !in store.lookupFailures
        invariant store.log == old(store.log) + LookupCalls(contacts[..i])
      {
        var user := store.FindUserByPhone(contacts[i].phoneNumber);
        assert contacts[..i + 1][..i] == contacts[..i];
        assert LookupCalls(contacts[..i + 1]) == LookupCalls(contacts[..i]) + [LookupCall(contacts[i].phoneNumber)];
        match user {
          case LookupError(e) =>
            PrefixFailureSticks(store.users, store.lookupFailures, old(store.lookupCalls), userID, contacts, i + 1, e);
            ResolveFailure(store.users, store.lookupFailures, old(store.lookupCalls), userID, contacts);
            return LookupFailed(e);
          case NoUser =>
          case Found(u) =>
            relations := relations + [Relation(userID, u.userID)];
        }
        i := i + 1;
      }
      assert contacts[..i] == contacts;
      ResolveFailure(store.users, store.lookupFailures, old(store.lookupCalls), userID, contacts);
      return Resolved(relations);
    }

    /** The second loop of `SaveContacts`: saves the relations in order and stops
        at the first failing save, returning its error unchanged. */
    method SaveRelations(relations: seq<Relation>) returns (err: Option<Error>)
      modifies store`log, store`relations, store`saveCalls
      ensures var s := FirstFailure(store.saveFailures, old(store.saveCalls), |relations|);
              var tried := if s < |relations| then s + 1 else s;
              && store.log == old(store.log) + SaveCalls(relations[..tried])
              && store.relations == old(store.relations) + relations[..s]
              && store.saveCalls == old(store.saveCalls) + tried
              && err == (if s < |relations| then Some(store.saveFailures[old(store.saveCalls) + s]) else None)
    {
      var j := 0;
      while j < |relations|
        invariant 0 <= j <= |relations|
        invariant store.saveCalls == old(store.saveCalls) + j
        invariant forall t :: old(store.saveCalls) <= t < old(store.saveCalls) + j ==> t !in store.saveFailures
        invariant store.relations == old(store.relations) + relations[..j]
        invariant store.log == old(store.log) + SaveCalls(relations[..j])
      {
        var e := store.SaveRelation(relations[j]);
        assert relations[..j + 1] == relations[..j] + [relations[j]];
        assert SaveCalls(relations[..j + 1]) == SaveCalls(relations[..j]) + [SaveCall(relations[j])];
        if e.Some? {
          return e;
        }
        j := j + 1;
      }
      assert relations[..j] == relations;
      assert FirstFailure(store.saveFailures, old(store.saveCalls), |relations|) == |relations|;
      return None;
    }

    /** Copies the store's friends into a new list, in the store's order. */
    method FindFriends(userID: int) returns (r: Result<seq<Friend>>)
      ensures store.FriendsOf(userID).Failure? ==> r == Failure(store.FriendsOf(userID).error)
      ensures store.FriendsOf(userID).Success? ==>
        var listed := store.FriendsOf(userID).value;
        r.Success? && |r.value| == |listed| && forall i :: 0 <= i < |listed| ==> r.value[i] == listed[i]
    {
      var friends: seq<Friend> := [];
      var resp := store.FindFriends(userID);
      if resp.Failure? {
        return Failure(resp.error);
      }
      var i := 0;
      while i < |resp.value|
        invariant 0 <= i <= |resp.value|
        invariant friends == resp.value[..i]
      {
        friends := friends + [resp.value[i]];
        i := i + 1;
      }
      return Success(friends);
    }

    /** The store's name for the user, or the empty name with the store's error. */
    method GetName(userID: int) returns (name: string, err: Option<Error>)
      ensures store.NameOf(userID).Failure? ==> name == "" && err == Some(store.NameOf(userID).error)
      ensures store.NameOf(userID).Success? ==> name == store.NameOf(userID).value && err == None
    {
      var resp := store.GetName(userID);
      if resp.Failure? {
        return "", Some(resp.error);
      }
      return resp.value, None;
    }
  }

  // ---------------------------------------------------------------------------
  // Worked scenarios: three registered users, contacts for two of them and an
  // unknown number.

  function Directory(): map<string, User> {
    map["+1000" := User(1, "Alice", "+1000"),
        "+1001" := User(2, "Bob", "+1001"),
        "+1002" := User(3, "Carol", "+1002")]
  }

  function Uploaded(): seq<Contact> {
    [Contact("_", "+1001"), Contact("_", "+1002"), Contact("_", "+9999")]
  }

  lemma UploadedMatches(start: nat)
    ensures Resolve(Directory(), map[], start, 1, Uploaded()) == Resolved([Relation(1, 2), Relation(1, 3)])
  {
    ResolveMatches(Directory(), map[], start, 1, Uploaded());
    var c := Uploaded();
    assert c[1..][1..][1..] == [];
    assert Matched(Directory(), c) == [User(2, "Bob", "+1001"), User(3, "Carol", "+1002")];
  }

  /** Lookup failures belong to calls, not to numbers: the same contact listed
      twice is found on the first lookup and can fail on the second. */
  lemma DuplicateContactSecondLookupFails(e: Error)
    ensures Resolve(Directory(), map[1 := e], 0, 1, [Contact("_", "+1001")]) == Resolved([Relation(1, 2)])
    ensures Resolve(Directory(), map[1 := e], 0, 1, [Contact("_", "+1001"), Contact("_", "+1001")]) == LookupFailed(e)
  {
  }
  /** Two matches become two relations in contact order; the unknown number is
      skipped without an error. */
  method MatchingScenario() returns (err: Option<Error>, saved: seq<Relation>)
    ensures err == None
    ensures saved == [Relation(1, 2), Relation(1, 3)]
  {
    var store := new MemoryStore(Directory(), map[], map[], map[], map[], map[]);
    var service := new ContactService(store);
    UploadedMatches(0);
    err := service.SaveContacts(1, Uploaded());
    assert [Relation(1, 2), Relation(1, 3)][..2] == [Relation(1, 2), Relation(1, 3)];
    saved := store.relations;
  }

  /** The second save fails: its error is returned, yet the first relation stays
      saved. There is no rollback. */
  method SecondSaveFailureScenario() returns (err: Option<Error>, saved: seq<Relation>)
    ensures err == Some(Error("connection reset"))
    ensures saved == [Relation(1, 2)]
  {
    var store := new MemoryStore(Directory(), map[], map[1 := Error("connection reset")], map[], map[], map[]);
    var service := new ContactService(store);
    UploadedMatches(0);
    assert 0 !in store.saveFailures && 1 in store.saveFailures;
    assert FirstFailure(store.saveFailures, 0, 2) == 1;
    err := service.SaveContacts(1, Uploaded());
    saved := store.relations;
  }

  /** Uploading the same list twice saves every relation twice. */
  method ResubmissionScenario() returns (saved: seq<Relation>)
    ensures saved == [Relation(1, 2), Relation(1, 3), Relation(1, 2), Relation(1, 3)]
  {
    var store := new MemoryStore(Directory(), map[], map[], map[], map[], map[]);
    var service := new ContactService(store);
    UploadedMatches(0);
    UploadedMatches(3);
    var first := service.SaveContacts(1, Uploaded());
    var second := service.SaveContacts(1, Uploaded());
    assert [Relation(1, 2), Relation(1, 3)][..2] == [Relation(1, 2), Relation(1, 3)];
    saved := store.relations;
  }

  /** A lookup error on the second lookup call: no relation is saved, no save is
      attempted, and the lookups stop at the failing contact. */
  method LookupFailureScenario() returns (err: Option<Error>, calls: seq<StoreCall>, saved: seq<Relation>)
    ensures err == Some(Error("timeout"))
    ensures calls == [LookupCall("+1001"), LookupCall("+1002")]
    ensures saved == []
  {
    var store := new MemoryStore(Directory(), map[1 := Error("timeout")], map[], map[], map[], map[]);
    var service := new ContactService(store);
    ResolveFailure(Directory(), map[1 := Error("timeout")], 0, 1, Uploaded());
    assert FirstFailure(map[1 := Error("timeout")], 0, 3) == 1;
    err := service.SaveContacts(1, Uploaded());
    calls := store.log;
    saved := store.relations;
  }

  /** A known user's name is passed through; an unknown id gives the empty name
      and the store's error. */
  method NameScenario() returns (known: string, knownErr: Option<Error>, unknown: string, unknownErr: Option<Error>)
    ensures known == "Bob" && knownErr == None
    ensures unknown == "" && unknownErr == Some(ErrNoRows)
  {
    var store := new MemoryStore(Directory(), map[], map[], map[], map[1 := "Alice", 2 := "Bob", 3 := "Carol"], map[]);
    var service := new ContactService(store);
    known, knownErr := service.GetName(2);
    unknown, unknownErr := service.GetName(99);
  }
}
