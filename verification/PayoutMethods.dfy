/** Where a user can be paid: app/payout_methods.py. One user's operations follow one another. */
module PayoutMethods {
  import opened Wrappers

  const MAX_METHODS := 5

  /** A saved method: a PayShap number, or an account known by its keyed hash. */
  datatype Method = Method(user: nat, shapId: Option<string>, account: Option<string>, isDefault: bool, createdAt: int)

  type Methods = map<nat, Method>
  type Users = map<nat, Option<string>>

  datatype Outcome = Saved(id: nat) | Done | Refused(reason: string) | FormatViolation

  function Owned(ms: Methods, user: nat): set<nat> {
    set id | id in ms && ms[id].user == user
  }

  function OwnedNumbers(ms: Methods, user: nat): set<nat> {
    set id | id in ms && ms[id].user == user && ms[id].shapId.Some?
  }

  /** Another row already holds this number or this account: the one-owner indexes. */
  predicate Taken(ms: Methods, m: Method) {
    exists id :: id in ms
                 && ((m.shapId.Some? && ms[id].shapId == m.shapId) || (m.account.Some? && ms[id].account == m.account))
  }

  /** Created last of these, and of those created then the one with the smallest id. */
  predicate IsNewest(ms: Methods, among: set<nat>, id: nat) {
    && id in among && id in ms
    && forall other :: other in among && other in ms ==>
         ms[other].createdAt < ms[id].createdAt || (ms[other].createdAt == ms[id].createdAt && id <= other)
  }

  lemma NewestIsOne(ms: Methods, among: set<nat>, a: nat, b: nat)
    requires IsNewest(ms, among, a) && IsNewest(ms, among, b)
    ensures a == b
  {
  }

  // --- what always holds ----------------------------------------------------------------------------

  predicate DefaultIs(ms: Methods, own: set<nat>, d: nat) {
    d in own && forall id :: id in own && id in ms ==> (ms[id].isDefault <==> id == d)
  }

  /** Exactly one default whenever there is a method. */
  ghost predicate OneDefault(ms: Methods, user: nat) {
    Owned(ms, user) != {} ==> exists d :: DefaultIs(ms, Owned(ms, user), d)
  }

  predicate Names(ms: Methods, own: set<nat>, id: nat, number: Option<string>) {
    id in own && id in ms && ms[id].shapId == number
  }

  /** `users.shap_id` is one of the user's saved numbers, or null when they have none. */
  ghost predicate CopyAgrees(ms: Methods, users: Users, user: nat) {
    user in users ==>
      match users[user]
      case Some(number) => exists id :: Names(ms, OwnedNumbers(ms, user), id, Some(number))
      case None => OwnedNumbers(ms, user) == {}
  }

  ghost predicate OneOwner(ms: Methods) {
    && (forall a, b :: a in ms && b in ms && ms[a].shapId.Some? && ms[a].shapId == ms[b].shapId ==> a == b)
    && (forall a, b :: a in ms && b in ms && ms[a].account.Some? && ms[a].account == ms[b].account ==> a == b)
  }

  ghost predicate KindsOk(ms: Methods, users: Users) {
    forall id :: id in ms ==> ms[id].user in users && ms[id].shapId.Some? != ms[id].account.Some?
  }

  /** Everything but the defaults. */
  ghost predicate Tidy(ms: Methods, users: Users) {
    && OneOwner(ms) && KindsOk(ms, users)
    && (forall u :: |Owned(ms, u)| <= MAX_METHODS)
    && (forall u :: CopyAgrees(ms, users, u))
  }

  ghost predicate Sound(ms: Methods, users: Users) {
    Tidy(ms, users) && forall u :: OneDefault(ms, u)
  }

  // --- what the operations do to the rows ---------------------------------------------------------------

  /** `_make_default`: clear the user's old default, then set this one. */
  function Promoted(ms: Methods, user: nat, id: nat): Methods {
    map i | i in ms :: if ms[i].user == user then ms[i].(isDefault := i == id) else ms[i]
  }

  /** `_finish`. */
  function Finished(ms: Methods, user: nat, id: nat, makeDefault: bool): Methods
    requires id in ms
  {
    if makeDefault && !ms[id].isDefault then Promoted(ms, user, id) else ms
  }

  lemma PromotedOwns(ms: Methods, user: nat, id: nat)
    ensures forall u :: Owned(Promoted(ms, user, id), u) == Owned(ms, u)
    ensures forall u :: OwnedNumbers(Promoted(ms, user, id), u) == OwnedNumbers(ms, u)
    ensures OneOwner(ms) ==> OneOwner(Promoted(ms, user, id))
  {
  }

  lemma DefaultsCarry(ms: Methods, after: Methods, u: nat)
    requires OneDefault(ms, u) && Owned(after, u) == Owned(ms, u)
    requires forall id :: id in Owned(ms, u) ==> after[id].isDefault == ms[id].isDefault
    ensures OneDefault(after, u)
  {
    if Owned(ms, u) != {} {
      var d :| DefaultIs(ms, Owned(ms, u), d);
      assert DefaultIs(after, Owned(after, u), d);
    }
  }

  /** A copy stays right while the number it names stays saved. */
  lemma CopyCarries(ms: Methods, after: Methods, users: Users, u: nat)
    requires CopyAgrees(ms, users, u) && (OwnedNumbers(ms, u) == {} ==> OwnedNumbers(after, u) == {})
    requires forall id :: id in OwnedNumbers(ms, u) ==>
            id in OwnedNumbers(after, u) && after[id].shapId == ms[id].shapId
    ensures CopyAgrees(after, users, u)
  {
    if u in users && users[u].Some? {
      var id :| Names(ms, OwnedNumbers(ms, u), id, users[u]);
      assert Names(after, OwnedNumbers(after, u), id, users[u]);
    }
  }

  lemma PromotedSound(ms: Methods, users: Users, user: nat, id: nat)
    requires Tidy(ms, users) && id in Owned(ms, user)
    requires forall u :: u != user ==> OneDefault(ms, u)
    ensures Sound(Promoted(ms, user, id), users)
  {
    var after := Promoted(ms, user, id);
    PromotedOwns(ms, user, id);
    assert KindsOk(after, users);
    forall u
      ensures OneDefault(after, u)
    {
      if u == user {
        assert DefaultIs(after, Owned(after, u), id);
      } else {
        DefaultsCarry(ms, after, u);
      }
    }
    hide OneOwner, OneDefault, CopyAgrees, KindsOk;
    forall u
      ensures CopyAgrees(after, users, u)
    {
      CopyCarries(ms, after, users, u);
    }
  }

  /** The copy on the user's row may point at any number they have saved. */
  lemma PointedSound(ms: Methods, users: Users, user: nat, id: nat)
    requires Sound(ms, users) && id in OwnedNumbers(ms, user)
    ensures Sound(ms, users[user := ms[id].shapId])
  {
    var after := users[user := ms[id].shapId];
    assert Names(ms, OwnedNumbers(ms, user), id, ms[id].shapId);
    forall u
      ensures CopyAgrees(ms, after, u)
    {
      assert CopyAgrees(ms, users, u);
    }
  }

  function CopyAfterAdding(users: Users, m: Method): Users {
    if m.shapId.Some? then users[m.user := m.shapId] else users
  }

  lemma InsertedOwns(ms: Methods, id: nat, m: Method)
    requires id !in ms
    ensures forall u :: Owned(ms[id := m], u) == if u == m.user then Owned(ms, u) + {id} else Owned(ms, u)
    ensures forall u :: OwnedNumbers(ms[id := m], u) ==
                        if u == m.user && m.shapId.Some? then OwnedNumbers(ms, u) + {id} else OwnedNumbers(ms, u)
  {
  }

  lemma InsertedOneOwner(ms: Methods, id: nat, m: Method)
    requires OneOwner(ms) && id !in ms && !Taken(ms, m)
    ensures OneOwner(ms[id := m])
  {
  }

  lemma InsertedCopy(ms: Methods, users: Users, id: nat, m: Method, u: nat)
    requires CopyAgrees(ms, users, u) && id !in ms && m.user in users
    ensures CopyAgrees(ms[id := m], CopyAfterAdding(users, m), u)
  {
    var added, copied := ms[id := m], CopyAfterAdding(users, m);
    InsertedOwns(ms, id, m);
    if u == m.user && m.shapId.Some? {
      assert Names(added, OwnedNumbers(added, u), id, copied[u]);
    } else {
      CopyCarries(ms, added, copied, u);
    }
  }

  lemma InsertedTidy(ms: Methods, users: Users, id: nat, m: Method)
    requires Tidy(ms, users) && id !in ms && m.user in users
    requires m.shapId.Some? != m.account.Some? && !Taken(ms, m) && |Owned(ms, m.user)| < MAX_METHODS
    ensures Tidy(ms[id := m], CopyAfterAdding(users, m))
  {
    var added, copied := ms[id := m], CopyAfterAdding(users, m);
    InsertedOneOwner(ms, id, m);
    hide OneOwner, Taken, CopyAgrees;
    forall u
      ensures CopyAgrees(added, copied, u)
    {
      InsertedCopy(ms, users, id, m, u);
    }
    forall u
      ensures |Owned(added, u)| <= MAX_METHODS
    {
      InsertedCount(ms, id, m, u);
    }
  }

  lemma InsertedCount(ms: Methods, id: nat, m: Method, u: nat)
    requires id !in ms
    ensures |Owned(ms[id := m], u)| == |Owned(ms, u)| + if u == m.user then 1 else 0
  {
    InsertedOwns(ms, id, m);
  }

  /** A new row, made the default when asked for or when it is the first, keeps everything. */
  lemma AddedSound(ms: Methods, users: Users, id: nat, m: Method, makeDefault: bool)
    requires Sound(ms, users) && id !in ms && m.user in users && !m.isDefault
    requires m.shapId.Some? != m.account.Some? && !Taken(ms, m) && |Owned(ms, m.user)| < MAX_METHODS
    ensures Sound(Finished(ms[id := m], m.user, id, makeDefault || Owned(ms, m.user) == {}), CopyAfterAdding(users, m))
  {
    hide Tidy, Taken;
    InsertedTidy(ms, users, id, m);
    InsertedOwns(ms, id, m);
    var added, copied := ms[id := m], CopyAfterAdding(users, m);
    forall u | u != m.user
      ensures OneDefault(added, u)
    {
      DefaultsCarry(ms, added, u);
    }
    if makeDefault || Owned(ms, m.user) == {} {
      PromotedSound(added, copied, m.user, id);
    } else {
      assert OneDefault(ms, m.user);
      var d :| DefaultIs(ms, Owned(ms, m.user), d);
      assert DefaultIs(added, Owned(added, m.user), d);
    }
  }

  /** Adding what is already saved returns it, points the copy at it, and may make it the default. */
  lemma ReaddedSound(ms: Methods, users: Users, user: nat, id: nat, makeDefault: bool)
    requires Sound(ms, users) && id in Owned(ms, user)
    ensures Sound(Finished(ms, user, id, makeDefault), users)
  {
    if makeDefault {
      PromotedSound(ms, users, user, id);
    }
  }

  // --- removing -------------------------------------------------------------------------------------------

  /** What listing the user's other rows, newest first, puts on top. */
  ghost predicate ComesNext(ms: Methods, user: nat, id: nat, next: nat, numbersOnly: bool) {
    && next in ms && next != id && ms[next].user == user && (numbersOnly ==> ms[next].shapId.Some?)
    && forall i :: i in ms && i != id && i != next && ms[i].user == user && (numbersOnly ==> ms[i].shapId.Some?) ==>
         ms[i].createdAt < ms[next].createdAt || (ms[i].createdAt == ms[next].createdAt && next < i)
  }

  /** The rows after a removal: a removed default hands over to the newest remaining, if any. */
  ghost predicate RemovedRows(ms: Methods, user: nat, id: nat, after: Methods)
    requires id in ms
  {
    if ms[id].isDefault && exists i :: i in ms && i != id && ms[i].user == user then
      exists next :: ComesNext(ms, user, id, next, false)
                     && after == (ms - {id})[next := ms[next].(isDefault := true)]
    else after == ms - {id}
  }

  /** The copy after a removal: it moves to the newest remaining number when it named the removed one. */
  ghost predicate RemovedCopy(ms: Methods, users: Users, user: nat, id: nat, users': Users)
    requires id in ms
  {
    if ms[id].shapId.Some? && user in users && users[user] == ms[id].shapId then
      if exists i :: i in ms && i != id && ms[i].user == user && ms[i].shapId.Some? then
        exists next :: ComesNext(ms, user, id, next, true) && users' == users[user := ms[next].shapId]
      else users' == users[user := None]
    else users' == users
  }

  /** That is the newest of the rows left, by their ids. */
  lemma NextIsNewest(ms: Methods, user: nat, id: nat)
    requires id in ms
    ensures (exists i :: i in ms && i != id && ms[i].user == user) <==> Owned(ms - {id}, user) != {}
    ensures (exists i :: i in ms && i != id && ms[i].user == user && ms[i].shapId.Some?) <==>
            OwnedNumbers(ms - {id}, user) != {}
    ensures forall i :: ComesNext(ms, user, id, i, false) <==> IsNewest(ms - {id}, Owned(ms - {id}, user), i)
    ensures forall i :: ComesNext(ms, user, id, i, true) <==> IsNewest(ms - {id}, OwnedNumbers(ms - {id}, user), i)
  {
    forall i | i in ms && i != id && ms[i].user == user
      ensures i in Owned(ms - {id}, user) && (ms[i].shapId.Some? ==> i in OwnedNumbers(ms - {id}, user))
    {
    }
    NextAmong(ms, user, id, false, Owned(ms - {id}, user));
    NextAmong(ms, user, id, true, OwnedNumbers(ms - {id}, user));
  }

  lemma NextAmong(ms: Methods, user: nat, id: nat, numbersOnly: bool, among: set<nat>)
    requires id in ms
    requires forall i :: i in among <==>
               i in ms && i != id && ms[i].user == user && (numbersOnly ==> ms[i].shapId.Some?)
    ensures forall i :: ComesNext(ms, user, id, i, numbersOnly) <==> IsNewest(ms - {id}, among, i)
  {
  }

  /** A removal leaves one state, whatever order the rows are in: the ordering by time and id settles every choice. */
  lemma RemovalDetermined(ms: Methods, users: Users, user: nat, id: nat, after: Methods, users': Users,
                          other: Methods, others': Users)
    requires id in ms
    requires RemovedRows(ms, user, id, after) && RemovedCopy(ms, users, user, id, users')
    requires RemovedRows(ms, user, id, other) && RemovedCopy(ms, users, user, id, others')
    ensures other == after && others' == users'
  {
    NextIsNewest(ms, user, id);
    hide IsNewest, ComesNext, Owned, OwnedNumbers;
    var left := ms - {id};
    forall among, a, b | IsNewest(left, among, a) && IsNewest(left, among, b)
      ensures a == b
    {
      NewestIsOne(left, among, a, b);
    }
  }

  lemma RemovedOwns(ms: Methods, id: nat)
    ensures forall u :: Owned(ms - {id}, u) == Owned(ms, u) - {id}
    ensures forall u :: OwnedNumbers(ms - {id}, u) == OwnedNumbers(ms, u) - {id}
    ensures OneOwner(ms) ==> OneOwner(ms - {id})
  {
  }

  lemma RemovedTidy(ms: Methods, users: Users, user: nat, id: nat, users': Users)
    requires Tidy(ms, users) && id in Owned(ms, user) && RemovedCopy(ms, users, user, id, users')
    ensures Tidy(ms - {id}, users')
  {
    var left := ms - {id};
    RemovedOwns(ms, id);
    forall u
      ensures |Owned(left, u)| <= MAX_METHODS
    {
      assert |Owned(left, u)| <= |Owned(ms, u)|;
    }
    hide OneOwner, CopyAgrees, RemovedCopy;
    forall u
      ensures CopyAgrees(left, users', u)
    {
      if u == user {
        RemovedOwnCopy(ms, users, user, id, users');
      } else {
        RemovedOtherCopy(ms, users, user, id, users', u);
      }
    }
    assert KindsOk(left, users') by {
      RemovedCopyUsers(ms, users, user, id, users');
    }
  }

  lemma RemovedCopyUsers(ms: Methods, users: Users, user: nat, id: nat, users': Users)
    requires id in Owned(ms, user) && RemovedCopy(ms, users, user, id, users')
    ensures users'.Keys == users.Keys
    ensures forall u :: u in users && u != user ==> users'[u] == users[u]
  {
    hide IsNewest;
  }

  lemma RemovedOtherCopy(ms: Methods, users: Users, user: nat, id: nat, users': Users, u: nat)
    requires CopyAgrees(ms, users, u) && u != user && id in Owned(ms, user) && RemovedCopy(ms, users, user, id, users')
    ensures CopyAgrees(ms - {id}, users', u)
  {
    RemovedCopyUsers(ms, users, user, id, users');
    RemovedOwns(ms, id);
    hide RemovedCopy;
    assert OwnedNumbers(ms - {id}, u) == OwnedNumbers(ms, u);
    if u in users && users[u].Some? {
      var i :| Names(ms, OwnedNumbers(ms, u), i, users[u]);
      assert Names(ms - {id}, OwnedNumbers(ms - {id}, u), i, users'[u]);
    }
  }

  lemma RemovedOwnCopy(ms: Methods, users: Users, user: nat, id: nat, users': Users)
    requires CopyAgrees(ms, users, user) && id in Owned(ms, user) && RemovedCopy(ms, users, user, id, users')
    ensures CopyAgrees(ms - {id}, users', user)
  {
    var left := ms - {id};
    RemovedOwns(ms, id);
    NextIsNewest(ms, user, id);
    hide OwnedNumbers, ComesNext;
    if user in users && users[user].Some? {
      if users[user] == ms[id].shapId {
        if OwnedNumbers(left, user) != {} {
          var next :| ComesNext(ms, user, id, next, true) && users' == users[user := ms[next].shapId];
          NewestNames(left, user, next);
        }
      } else {
        var i :| Names(ms, OwnedNumbers(ms, user), i, users[user]);
        assert Names(left, OwnedNumbers(left, user), i, users'[user]);
      }
    }
  }

  lemma NumbersAreRows(ms: Methods, user: nat)
    ensures OwnedNumbers(ms, user) <= ms.Keys
  {
  }

  lemma SameNewest(ms: Methods, after: Methods, among: set<nat>, id: nat)
    requires IsNewest(after, among, id) && after.Keys == ms.Keys
    requires forall i :: i in ms ==> after[i].createdAt == ms[i].createdAt
    ensures IsNewest(ms, among, id)
  {
  }

  lemma NewestNames(ms: Methods, user: nat, next: nat)
    requires IsNewest(ms, OwnedNumbers(ms, user), next)
    ensures Names(ms, OwnedNumbers(ms, user), next, ms[next].shapId) && ms[next].shapId.Some?
  {
  }

  lemma RemovedSound(ms: Methods, users: Users, user: nat, id: nat, after: Methods, users': Users)
    requires Sound(ms, users) && id in Owned(ms, user)
    requires RemovedRows(ms, user, id, after) && RemovedCopy(ms, users, user, id, users')
    ensures Sound(after, users')
  {
    var left := ms - {id};
    RemovedTidy(ms, users, user, id, users');
    OthersKeepDefaults(ms, user, id);
    NextIsNewest(ms, user, id);
    hide Tidy, RemovedCopy, OneDefault, ComesNext, IsNewest;
    if ms[id].isDefault && Owned(left, user) != {} {
      var next := HandedOver(ms, user, id, after);
      PromotedSound(left, users', user, next);
    } else {
      DefaultStays(ms, user, id);
    }
  }

  lemma OthersKeepDefaults(ms: Methods, user: nat, id: nat)
    requires id in Owned(ms, user) && forall u :: OneDefault(ms, u)
    ensures forall u :: u != user ==> OneDefault(ms - {id}, u)
  {
    RemovedOwns(ms, id);
    hide OneDefault, OneOwner;
    forall u | u != user
      ensures OneDefault(ms - {id}, u)
    {
      assert id !in Owned(ms, u);
      DefaultsCarry(ms, ms - {id}, u);
    }
  }

  /** A removed default's rows are those left with the newest promoted. */
  lemma HandedOver(ms: Methods, user: nat, id: nat, after: Methods) returns (next: nat)
    requires id in Owned(ms, user) && OneDefault(ms, user) && RemovedRows(ms, user, id, after)
    requires ms[id].isDefault && Owned(ms - {id}, user) != {}
    ensures next in Owned(ms - {id}, user) && after == Promoted(ms - {id}, user, next)
  {
    var left := ms - {id};
    NoDefaultLeft(ms, user, id);
    NextIsNewest(ms, user, id);
    hide OneDefault, Promoted, OwnedNumbers, IsNewest;
    next :| ComesNext(ms, user, id, next, false) && after == left[next := ms[next].(isDefault := true)];
    hide RemovedRows;
    PromotesTo(left, user, next, after);
  }

  lemma NoDefaultLeft(ms: Methods, user: nat, id: nat)
    requires id in Owned(ms, user) && OneDefault(ms, user) && ms[id].isDefault
    ensures forall i :: i in ms && i != id && ms[i].user == user ==> !ms[i].isDefault
  {
    var d :| DefaultIs(ms, Owned(ms, user), d);
    assert forall i :: i in ms && ms[i].user == user ==> i in Owned(ms, user);
  }

  lemma PromotesTo(left: Methods, user: nat, next: nat, after: Methods)
    requires next in left && left[next].user == user && after == left[next := left[next].(isDefault := true)]
    requires forall i :: i in left && left[i].user == user ==> !left[i].isDefault
    ensures next in Owned(left, user) && after == Promoted(left, user, next)
  {
  }

  /** A removal takes its row out, and of the others changes at most which is the default. */
  lemma RowsLeft(ms: Methods, user: nat, id: nat, after: Methods)
    requires id in ms && RemovedRows(ms, user, id, after)
    ensures after.Keys == ms.Keys - {id}
    ensures forall i :: i in after ==> after[i].(isDefault := ms[i].isDefault) == ms[i]
    ensures OwnedNumbers(after, user) == OwnedNumbers(ms - {id}, user)
  {
  }

  lemma DefaultStays(ms: Methods, user: nat, id: nat)
    requires id in Owned(ms, user) && OneDefault(ms, user)
    requires !(ms[id].isDefault && Owned(ms - {id}, user) != {})
    ensures OneDefault(ms - {id}, user)
  {
    RemovedOwns(ms, id);
    var d :| DefaultIs(ms, Owned(ms, user), d);
    if Owned(ms - {id}, user) != {} {
      assert DefaultIs(ms - {id}, Owned(ms - {id}, user), d);
    }
  }

  // --- the service ----------------------------------------------------------------------------------------

  predicate Lower(ch: char) {
    'a' <= ch <= 'z' || ch == '_'
  }

  /** The column's format check: +27, a mobile number, and an optional lower-case bank suffix. */
  predicate ShapIdFormat(s: string) {
    && |s| >= 12 && s[..3] == "+27" && '6' <= s[3] <= '8'
    && (forall i :: 4 <= i < 12 ==> '0' <= s[i] <= '9')
    && (|s| == 12 || (|s| > 13 && s[12] == '@' && forall i :: 13 <= i < |s| ==> Lower(s[i])))
  }

  /** The number's own check, part by part: a country code, a mobile number, and a bank's name in lower case. */
  lemma FormatParts(number: string, bank: string)
    requires |number| == 12
    ensures ShapIdFormat(number) <==>
              && number[0] == '+' && number[1] == '2' && number[2] == '7' && number[3] in "678"
              && forall i :: 4 <= i < 12 ==> number[i] in "0123456789"
    ensures ShapIdFormat(number + "@" + bank) <==>
              ShapIdFormat(number) && bank != "" && forall c :: c in bank ==> c == '_' || 'a' <= c <= 'z'
  {
    assert number[..3] == [number[0], number[1], number[2]];
    var s := number + "@" + bank;
    assert s[..3] == number[..3] && s[12] == '@' && (forall i :: 3 <= i < 12 ==> s[i] == number[i]);
    assert s[13..] == bank && forall i :: 13 <= i < |s| ==> s[i] == bank[i - 13];
    forall i | 13 <= i < |s|
      ensures s[i] in bank
    {
    }
    forall c | c in bank
      ensures ShapIdFormat(s) ==> Lower(c)
    {
      var k :| 0 <= k < |bank| && bank[k] == c;
      assert s[k + 13] == c;
    }
    assert bank != "" ==> s != number;
    assert ShapIdFormat(s) ==> ShapIdFormat(number);
  }

  /** No other length is a number. */
  lemma FormatSplits(s: string)
    requires ShapIdFormat(s)
    ensures |s| == 12 || (|s| > 13 && s == s[..12] + "@" + s[13..])
  {
  }

  /** The user's own row for this very number or account. */
  predicate Same(a: Method, b: Method) {
    a.user == b.user && a.shapId == b.shapId && a.account == b.account
  }

  /** What looking for the same method and inserting leave, whichever kind it is. */
  ghost predicate Added(ms: Methods, users: Users, ms': Methods, users': Users, r: Outcome, m: Method,
                        makeDefault: bool, newId: nat, taken: string)
  {
    if exists id :: id in ms && Same(ms[id], m) then
      && r.Saved? && r.id in ms && Same(ms[r.id], m)
      && ms' == Finished(ms, m.user, r.id, makeDefault) && users' == CopyAfterAdding(users, m)
    else if Taken(ms, m) then r == Refused(taken) && ms' == ms && users' == users
    else if |Owned(ms, m.user)| >= MAX_METHODS then r == Refused("payout_method_limit") && ms' == ms && users' == users
    else
      && r == Saved(newId) && users' == CopyAfterAdding(users, m)
      && ms' == Finished(ms[newId := m], m.user, newId, makeDefault || Owned(ms, m.user) == {})
  }

  /** What becomes of the rows a user had when method `id` is theirs: it is the default if asked for. */
  lemma FinishedRows(ms: Methods, users: Users, user: nat, id: nat, makeDefault: bool)
    requires Sound(ms, users) && id in ms && ms[id].user == user
    ensures var after := Finished(ms, user, id, makeDefault);
            && after.Keys == ms.Keys
            && forall i :: i in ms ==>
                 after[i] == if makeDefault && ms[i].user == user then ms[i].(isDefault := i == id) else ms[i]
  {
    assert id in Owned(ms, user) && OneDefault(ms, user);
  }

  /** The rows a new method joins: it is the default if asked for or the first, and nobody else's row changes. */
  lemma InsertedRows(ms: Methods, users: Users, m: Method, newId: nat, makeDefault: bool)
    requires Sound(ms, users) && newId !in ms && !m.isDefault
    ensures var none := forall i :: i in ms ==> ms[i].user != m.user;
            var after := Finished(ms[newId := m], m.user, newId, makeDefault || Owned(ms, m.user) == {});
            && after.Keys == ms.Keys + {newId} && after[newId] == m.(isDefault := makeDefault || none)
            && forall i :: i in ms ==>
                 after[i] == if makeDefault && ms[i].user == m.user then ms[i].(isDefault := false) else ms[i]
  {
    assert forall i :: i in ms && ms[i].user == m.user ==> i in Owned(ms, m.user);
  }

  /** A row is a number or an account, so one of the two decides whether it is the same, or taken. */
  lemma OneKind(ms: Methods, users: Users, m: Method)
    requires Sound(ms, users) && m.shapId.Some? != m.account.Some?
    ensures forall id :: id in ms ==>
              (Same(ms[id], m) <==>
                 && ms[id].user == m.user
                 && if m.shapId.Some? then ms[id].shapId == m.shapId else ms[id].account == m.account)
    ensures Taken(ms, m) <==>
              exists id :: id in ms && if m.shapId.Some? then ms[id].shapId == m.shapId else ms[id].account == m.account
    ensures Owned(ms, m.user) == set id | id in ms && ms[id].user == m.user
  {
  }

  class PayoutMethodService {
    var methods: Methods
    var users: Users

    ghost predicate Valid()
      reads this
    {
      Sound(methods, users)
    }

    /** Registering: no methods yet, and no number to copy. */
    method Register(user: nat)
      requires Valid() && user !in users
      modifies this`users
      ensures Valid() && users == old(users)[user := None]
    {
      assert Owned(methods, user) == {} && OwnedNumbers(methods, user) == {};
      var after := users[user := None];
      forall u
        ensures CopyAgrees(methods, after, u)
      {
        assert CopyAgrees(methods, users, u);
      }
      users := after;
    }

    /** `add_shap_id`; `refusal` is what the directory or the name check answers. */
    method AddShapId(user: nat, number: string, makeDefault: bool, refusal: Option<string>, newId: nat, now: int)
      returns (r: Outcome)
      requires Valid() && newId !in methods
      modifies this
      ensures Valid()
      ensures var (ms, us) := (old(methods), old(users));
              var mine := set id | id in ms && ms[id].user == user;
              if user !in us then r == Refused("not_registered") && methods == ms && users == us
              else if refusal.Some? then r == Refused(refusal.value) && methods == ms && users == us
              else if !ShapIdFormat(number) then r == FormatViolation && methods == ms && users == us
              else if exists id :: id in mine && ms[id].shapId == Some(number) then
                && r.Saved? && r.id in mine && ms[r.id].shapId == Some(number)
                && methods.Keys == ms.Keys && users == us[user := Some(number)]
                && forall id :: id in ms ==>
                     methods[id] == if makeDefault && id in mine then ms[id].(isDefault := id == r.id) else ms[id]
              else if exists id :: id in ms && ms[id].shapId == Some(number) then
                r == Refused("shapid_already_linked") && methods == ms && users == us
              else if |mine| >= 5 then r == Refused("payout_method_limit") && methods == ms && users == us
              else
                && r == Saved(newId) && methods.Keys == ms.Keys + {newId} && users == us[user := Some(number)]
                && methods[newId] == Method(user, Some(number), None, makeDefault || mine == {}, now)
                && forall id :: id in ms ==>
                     methods[id] == if makeDefault && id in mine then ms[id].(isDefault := false) else ms[id]
    {
      if user !in users {
        return Refused("not_registered");
      }
      if refusal.Some? {
        return Refused(refusal.value);
      }
      if !ShapIdFormat(number) {
        return FormatViolation;
      }
      ghost var m := Method(user, Some(number), None, false, now);
      InsertedRows(methods, users, m, newId, makeDefault);
      OneKind(methods, users, m);
      hide Sound, Same, Taken, Owned, Finished, ShapIdFormat;
      ghost var ms, us := methods, users;
      r := Add(Method(user, Some(number), None, false, now), makeDefault, newId, "shapid_already_linked");
      if r.Saved? && r.id in ms {
        FinishedRows(ms, us, user, r.id, makeDefault);
      }
    }

    /** `add_account`; `early` is a missing key or a malformed account, `refusal` the verifier's. */
    method AddAccount(user: nat, hash: string, makeDefault: bool, early: Option<string>, refusal: Option<string>,
                      newId: nat, now: int)
      returns (r: Outcome)
      requires Valid() && newId !in methods
      modifies this
      ensures Valid()
      ensures var (ms, us) := (old(methods), old(users));
              var mine := set id | id in ms && ms[id].user == user;
              if early.Some? then r == Refused(early.value) && methods == ms && users == us
              else if user !in us then r == Refused("not_registered") && methods == ms && users == us
              else if refusal.Some? then r == Refused(refusal.value) && methods == ms && users == us
              else if exists id :: id in mine && ms[id].account == Some(hash) then
                && r.Saved? && r.id in mine && ms[r.id].account == Some(hash)
                && methods.Keys == ms.Keys && users == us
                && forall id :: id in ms ==>
                     methods[id] == if makeDefault && id in mine then ms[id].(isDefault := id == r.id) else ms[id]
              else if exists id :: id in ms && ms[id].account == Some(hash) then
                r == Refused("account_already_linked") && methods == ms && users == us
              else if |mine| >= 5 then r == Refused("payout_method_limit") && methods == ms && users == us
              else
                && r == Saved(newId) && methods.Keys == ms.Keys + {newId} && users == us
                && methods[newId] == Method(user, None, Some(hash), makeDefault || mine == {}, now)
                && forall id :: id in ms ==>
                     methods[id] == if makeDefault && id in mine then ms[id].(isDefault := false) else ms[id]
    {
      if early.Some? {
        return Refused(early.value);
      }
      if user !in users {
        return Refused("not_registered");
      }
      if refusal.Some? {
        return Refused(refusal.value);
      }
      ghost var m := Method(user, None, Some(hash), false, now);
      InsertedRows(methods, users, m, newId, makeDefault);
      OneKind(methods, users, m);
      hide Sound, Same, Taken, Owned, Finished;
      ghost var ms, us := methods, users;
      r := Add(Method(user, None, Some(hash), false, now), makeDefault, newId, "account_already_linked");
      if r.Saved? && r.id in ms {
        FinishedRows(ms, us, user, r.id, makeDefault);
      }
    }

    /** What the two additions share, from looking for the same method to `_insert`. */
    method Add(m: Method, makeDefault: bool, newId: nat, taken: string) returns (r: Outcome)
      requires Valid() && newId !in methods && m.user in users && !m.isDefault
      requires m.shapId.Some? != m.account.Some? && (m.shapId.Some? ==> ShapIdFormat(m.shapId.value))
      modifies this
      ensures Valid()
      ensures Added(old(methods), old(users), methods, users, r, m, makeDefault, newId, taken)
    {
      ghost var ms, us := methods, users;
      var before := users;
      if m.shapId.Some? {
        users := users[m.user := m.shapId];
      }
      if exists id :: id in methods && Same(methods[id], m) {
        var id :| id in methods && Same(methods[id], m);
        if m.shapId.Some? {
          PointedSound(ms, us, m.user, id);
        }
        ReaddedSound(ms, users, m.user, id, makeDefault);
        Finish(m.user, id, makeDefault);
        return Saved(id);
      }
      if Taken(methods, m) {
        users := before;
        return Refused(taken);
      }
      var count := |Owned(methods, m.user)|;
      if count >= MAX_METHODS {
        users := before;
        return Refused("payout_method_limit");
      }
      AddedSound(ms, us, newId, m, makeDefault);
      methods := methods[newId := m];
      Finish(m.user, newId, makeDefault || count == 0);
      r := Saved(newId);
    }

    method Finish(user: nat, id: nat, makeDefault: bool)
      requires id in methods
      modifies this`methods
      ensures methods == Finished(old(methods), user, id, makeDefault)
    {
      if makeDefault && !methods[id].isDefault {
        MakeDefault(user, id);
      }
    }

    method MakeDefault(user: nat, id: nat)
      requires id in methods
      modifies this`methods
      ensures methods == Promoted(old(methods), user, id)
    {
      methods := map i | i in methods ::
        if methods[i].user == user && methods[i].isDefault then methods[i].(isDefault := false) else methods[i];
      if methods[id].user == user {
        methods := methods[id := methods[id].(isDefault := true)];
      }
    }

    /** `set_default`. */
    method SetDefault(user: nat, id: nat) returns (r: Outcome)
      requires Valid()
      modifies this
      ensures Valid()
      ensures if id in old(methods) && old(methods)[id].user == user then
                && r == Outcome.Done && methods.Keys == old(methods).Keys
                && (forall i :: i in methods ==>
                      methods[i] == if old(methods)[i].user == user then old(methods)[i].(isDefault := i == id)
                                    else old(methods)[i])
                && var number := old(methods)[id].shapId;
                   users == if number.Some? then old(users)[user := number] else old(users)
              else r == Refused("payout_method_not_found") && methods == old(methods) && users == old(users)
    {
      if id !in methods || methods[id].user != user {
        return Refused("payout_method_not_found");
      }
      var m := methods[id];
      FinishedRows(methods, users, user, id, true);
      ReaddedSound(methods, users, user, id, true);
      Finish(user, id, true);
      if m.shapId.Some? {
        PointedSound(methods, users, user, id);
        users := users[user := m.shapId];
      }
      r := Outcome.Done;
    }

    /** The newest of some rows: created last, then by id. */
    method Newest(among: set<nat>) returns (newest: nat)
      requires among != {} && among <= methods.Keys
      ensures IsNewest(methods, among, newest)
    {
      newest :| newest in among;
      var rest := among - {newest};
      while rest != {}
        invariant rest <= among
        invariant IsNewest(methods, among - rest, newest)
        decreases rest
      {
        var next :| next in rest;
        var (a, b) := (methods[next].createdAt, methods[newest].createdAt);
        if b < a || (a == b && next <= newest) {
          newest := next;
        }
        rest := rest - {next};
      }
    }

    /** `remove`. */
    method Remove(user: nat, id: nat) returns (r: Outcome)
      requires Valid()
      modifies this
      ensures Valid()
      ensures if id in old(methods) && old(methods)[id].user == user then
                && r == Outcome.Done && RemovedRows(old(methods), user, id, methods)
                && RemovedCopy(old(methods), old(users), user, id, users)
              else r == Refused("payout_method_not_found") && methods == old(methods) && users == old(users)
    {
      if id !in methods || methods[id].user != user {
        return Refused("payout_method_not_found");
      }
      ghost var ms, us := methods, users;
      var m := methods[id];
      HandOver(user, id);
      if m.shapId.Some? && users[user] == m.shapId {
        MoveCopy(user, id, ms);
      }
      RemovedSound(ms, us, user, id, methods, users);
      r := Outcome.Done;
    }

    /** Delete the row; if it was the default, the newest left becomes it. */
    method HandOver(user: nat, id: nat)
      requires id in methods && methods[id].user == user
      modifies this`methods
      ensures RemovedRows(old(methods), user, id, methods)
    {
      NextIsNewest(methods, user, id);
      hide IsNewest, ComesNext;
      var m := methods[id];
      methods := methods - {id};
      if m.isDefault && Owned(methods, user) != {} {
        var next := Newest(Owned(methods, user));
        methods := methods[next := methods[next].(isDefault := true)];
      }
    }

    /** Point the copy, which names the number just removed, at the newest number left. */
    method MoveCopy(user: nat, id: nat, ghost ms: Methods)
      requires id in ms && RemovedRows(ms, user, id, methods)
      requires user in users && ms[id].shapId.Some? && users[user] == ms[id].shapId
      modifies this`users
      ensures RemovedCopy(ms, old(users), user, id, users)
    {
      RowsLeft(ms, user, id, methods);
      NextIsNewest(ms, user, id);
      hide IsNewest, ComesNext, RemovedRows, OwnedNumbers;
      var numbers := OwnedNumbers(methods, user);
      if numbers == {} {
        users := users[user := None];
      } else {
        assert numbers <= methods.Keys by { NumbersAreRows(methods, user); }
        var number := Newest(numbers);
        SameNewest(ms - {id}, methods, numbers, number);
        users := users[user := methods[number].shapId];
      }
    }
  }
}
