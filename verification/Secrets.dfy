/**
 Moving a secret when a changed profile changes its keychain key. Reads can wait or fail, writes and
 deletes can be refused, and keys left behind are owed a delete. The main results: blank saves
 never lose the secret, the current key is never deleted behind a move, and every key that still
 holds a secret is accounted for, except in exactly one case.

 One secret slot of one network is modelled: its server password, or its NickServ password.
 */
module Secrets {
  import opened Wrappers

  /** What the key of a slot depends on. A profile without a username uses its nick. */
  datatype Account = Account(username: string, host: string)

  /** A keychain entry of the slot. An early build kept server passwords under a legacy entry. */
  datatype Key = Key(account: Account, legacy: bool)

  function Primary(a: Account): Key {
    Key(a, false)
  }

  function Legacy(a: Account): Key {
    Key(a, true)
  }

  /** What the keychain holds for the slot, and which of its keys are still to be deleted. Only the
      password slot ever had legacy entries. */
  datatype Slot = Slot(password: bool, held: map<Key, string>, owed: set<Key>)
  {
    predicate Valid() {
      !password ==> forall k :: k in held.Keys + owed ==> !k.legacy
    }
  }

  /** What the keychain answers during one operation. `truthful` reads answer, the others wait or
      fail; `write` and the deletes are done or refused. */
  datatype Answers = Answers(
    waits: set<Key>,
    fails: set<Key>,
    write: bool,
    removePrimary: bool,
    removeLegacy: bool,
    deleteOld: bool,
    refuses: set<Key>)

  datatype Read = Loading | Failed | Nothing | Found(secret: string)

  datatype State = Missing | Saved | Checking | Error

  predicate Settled(s: State) {
    s == Missing || s == Saved
  }

  // ----- what each operation does, as functions -----

  function ReadKey(s: Slot, a: Answers, k: Key): Read {
    if k in a.waits then Loading
    else if k in a.fails then Failed
    else if k in s.held then Found(s.held[k])
    else Nothing
  }

  /** Reads the entry under its key, and under its legacy key when that holds nothing. */
  function ReadSlot(s: Slot, a: Answers, account: Account): Read {
    var first := ReadKey(s, a, Primary(account));
    if first == Nothing && s.password then ReadKey(s, a, Legacy(account)) else first
  }

  function StateOf(r: Read): State {
    match r
    case Loading => Checking
    case Failed => Error
    case Nothing => Missing
    case Found(_) => Saved
  }

  function Drop(s: Slot, k: Key, done: bool): Slot {
    if done then s.(held := s.held - {k}) else s
  }

  /** Writes the entry, and drops the legacy one behind a write that held. */
  function WriteSlot(s: Slot, a: Answers, account: Account, secret: string): Slot {
    if !a.write then s
    else
      var written := s.(held := s.held[Primary(account) := secret]);
      Drop(written, Legacy(account), s.password && a.removeLegacy)
  }

  function RemoveSlot(s: Slot, a: Answers, account: Account): Slot {
    Drop(Drop(s, Primary(account), a.removePrimary), Legacy(account), s.password && a.removeLegacy)
  }

  function RemoveState(s: Slot, a: Answers): State {
    if !a.removePrimary || (s.password && !a.removeLegacy) then Error else Missing
  }

  /** One delete: done and settled, or refused and put on the books. */
  function DeleteKey(s: Slot, k: Key, done: bool): Slot {
    if done then Drop(s, k, true).(owed := s.owed - {k}) else s.(owed := s.owed + {k})
  }

  /** Deletes `keys`, all owed; those refused stay owed. */
  function DeleteAll(s: Slot, keys: set<Key>, refuses: set<Key>): Slot {
    s.(held := s.held - (keys - refuses), owed := s.owed - (keys - refuses))
  }

  /** Deletes every owed key but the current one, whose debt is dropped. */
  function Retire(s: Slot, account: Account, refuses: set<Key>): Slot {
    var current := Primary(account);
    DeleteAll(s.(owed := s.owed - {current}), s.owed - {current}, refuses)
  }

  function Carry(s: Slot, a: Answers, from: Account, account: Account): Slot {
    match ReadSlot(s, a, from)
    case Found(secret) =>
      var written := WriteSlot(s, a, account, secret);
      if a.write then Retire(written, account, a.refuses) else written
    case Nothing =>
      if Settled(StateOf(ReadSlot(s, a, account))) then DeleteKey(s, Primary(from), a.deleteOld) else s
    case _ => s
  }

  function CarryState(s: Slot, a: Answers, from: Account, account: Account): State {
    match ReadSlot(s, a, from)
    case Found(_) => if a.write then Saved else Error
    case Nothing => StateOf(ReadSlot(s, a, account))
    case other => StateOf(other)
  }

  /** The key a save leaves behind. */
  predicate Moves(stored: Option<Account>, account: Account) {
    stored.Some? && stored.value != account
  }

  /** Saves the slot for a profile. `edit` is the secret typed: none when it was left blank, empty to
      clear it. */
  function Store(s: Slot, a: Answers, stored: Option<Account>, account: Account, edit: Option<string>): Slot {
    var s1 := if Moves(stored, account) then s.(owed := s.owed + {Primary(stored.value)}) else s;
    match edit
    case None => if Moves(stored, account) then Carry(s1, a, stored.value, account) else s1
    case Some(secret) =>
      if secret == "" then
        var removed := RemoveSlot(s1, a, account);
        if Settled(RemoveState(s1, a)) then Retire(removed, account, a.refuses) else removed
      else
        var written := WriteSlot(s1, a, account, secret);
        if a.write then Retire(written, account, a.refuses) else written
  }

  function StoreState(s: Slot, a: Answers, stored: Option<Account>, account: Account, edit: Option<string>): State {
    match edit
    case None => if Moves(stored, account) then CarryState(s, a, stored.value, account) else StateOf(ReadSlot(s, a, account))
    case Some(secret) => if secret == "" then RemoveState(s, a) else if a.write then Saved else Error
  }

  /** The keys an account can have in the slot. */
  function KeysOf(s: Slot, account: Account): set<Key> {
    if s.password then {Primary(account), Legacy(account)} else {Primary(account)}
  }

  /** Forgets the slot now: its keys are owed, and everything owed is deleted. */
  function ForgetSlot(s: Slot, a: Answers, account: Account): Slot {
    var owing := s.(owed := s.owed + KeysOf(s, account));
    DeleteAll(owing, owing.owed, a.refuses)
  }

  function ForgetState(s: Slot, a: Answers, account: Account): State {
    var owing := s.owed + KeysOf(s, account);
    if owing * a.refuses != {} then Error else StateOf(ReadSlot(ForgetSlot(s, a, account), a, account))
  }

  // ----- the slot, updated in place -----

  lemma DeleteOneMore(s: Slot, keys: set<Key>, k: Key, refuses: set<Key>)
    ensures DeleteAll(s, {}, refuses) == s
    ensures keys + {k} <= s.owed ==>
              DeleteAll(s, keys + {k}, refuses) == DeleteKey(DeleteAll(s, keys, refuses), k, k !in refuses)
  {
  }

  class CredentialSlot {
    const password: bool
    var held: map<Key, string>
    var owed: set<Key>

    ghost function Model(): Slot
      reads this
    {
      Slot(password, held, owed)
    }

    constructor (password: bool)
      ensures Model() == Slot(password, map[], {})
    {
      this.password, held, owed := password, map[], {};
    }

    function ReadOne(a: Answers, k: Key): (r: Read)
      reads this
      ensures r == ReadKey(Model(), a, k)
    {
      if k in a.waits then Loading
      else if k in a.fails then Failed
      else if k in held then Found(held[k])
      else Nothing
    }

    method ReadEntry(a: Answers, account: Account) returns (r: Read)
      ensures r == ReadSlot(Model(), a, account)
    {
      r := ReadOne(a, Primary(account));
      if r == Nothing && password {
        r := ReadOne(a, Legacy(account));
      }
    }

    method Write(a: Answers, account: Account, secret: string) returns (state: State)
      modifies this`held
      ensures Model() == WriteSlot(old(Model()), a, account, secret)
      ensures state == if a.write then Saved else Error
    {
      if !a.write {
        return Error;
      }
      held := held[Primary(account) := secret];
      if password && a.removeLegacy {
        held := held - {Legacy(account)};
      }
      return Saved;
    }

    method Remove(a: Answers, account: Account) returns (state: State)
      modifies this`held
      ensures Model() == RemoveSlot(old(Model()), a, account)
      ensures state == RemoveState(old(Model()), a)
    {
      state := if a.removePrimary then Missing else Error;
      if a.removePrimary {
        held := held - {Primary(account)};
      }
      if password {
        if a.removeLegacy {
          held := held - {Legacy(account)};
        } else {
          state := Error;
        }
      }
    }

    method Delete(k: Key, done: bool) returns (state: State)
      modifies this
      ensures Model() == DeleteKey(old(Model()), k, done)
      ensures state == if done then Missing else Error
    {
      if !done {
        owed := owed + {k};
        return Error;
      }
      held := held - {k};
      owed := owed - {k};
      return Missing;
    }

    /** Deletes keys that are owed, one by one. Returns whether any delete was refused. */
    method DeleteEach(keys: set<Key>, refuses: set<Key>) returns (refused: bool)
      requires keys <= owed
      modifies this
      ensures Model() == DeleteAll(old(Model()), keys, refuses)
      ensures refused == (keys * refuses != {})
    {
      refused := false;
      var left := keys;
      ghost var done: set<Key> := {};
      DeleteOneMore(old(Model()), {}, Primary(Account("", "")), refuses);
      while left != {}
        invariant left <= keys && done == keys - left
        invariant Model() == DeleteAll(old(Model()), done, refuses)
        invariant refused == (done * refuses != {})
        decreases left
      {
        var k :| k in left;
        left := left - {k};
        DeleteOneMore(old(Model()), done, k, refuses);
        hide DeleteAll, DeleteKey;
        var state := Delete(k, k !in refuses);
        if state == Error {
          assert k in (done + {k}) * refuses;
          refused := true;
        } else {
          assert (done + {k}) * refuses == done * refuses;
        }
        done := done + {k};
      }
      assert done == keys;
    }

    method RetireObsolete(a: Answers, account: Account)
      modifies this
      ensures Model() == Retire(old(Model()), account, a.refuses)
    {
      var others := owed - {Primary(account)};
      owed := owed - {Primary(account)};
      var _ := DeleteEach(others, a.refuses);
    }

    method CarrySecret(a: Answers, from: Account, account: Account) returns (state: State)
      modifies this
      ensures Model() == Carry(old(Model()), a, from, account)
      ensures state == CarryState(old(Model()), a, from, account)
    {
      var read := ReadEntry(a, from);
      match read {
        case Loading => return Checking;
        case Failed => return Error;
        case Found(secret) =>
          state := Write(a, account, secret);
          if Settled(state) {
            RetireObsolete(a, account);
          }
        case Nothing =>
          var now := ReadEntry(a, account);
          state := StateOf(now);
          if Settled(state) {
            var _ := Delete(Primary(from), a.deleteOld);
          }
      }
    }

    method StoreSecret(a: Answers, stored: Option<Account>, account: Account, edit: Option<string>) returns (state: State)
      modifies this
      ensures Model() == Store(old(Model()), a, stored, account, edit)
      ensures state == StoreState(old(Model()), a, stored, account, edit)
    {
      hide Retire, Carry, WriteSlot, RemoveSlot;
      if stored.Some? && stored.value != account {
        owed := owed + {Primary(stored.value)};
        if edit.None? {
          state := CarrySecret(a, stored.value, account);
          return;
        }
      }
      if edit.None? {
        var read := ReadEntry(a, account);
        return StateOf(read);
      }
      if edit.value == "" {
        state := Remove(a, account);
      } else {
        state := Write(a, account, edit.value);
      }
      if Settled(state) {
        RetireObsolete(a, account);
      }
    }

    method ForgetSecret(a: Answers, account: Account) returns (state: State)
      modifies this
      ensures Model() == ForgetSlot(old(Model()), a, account)
      ensures state == ForgetState(old(Model()), a, account)
    {
      owed := owed + {Primary(account)};
      if password {
        owed := owed + {Legacy(account)};
      }
      assert owed == old(owed) + KeysOf(old(Model()), account);
      var refused := DeleteEach(owed, a.refuses);
      if refused {
        return Error;
      }
      var read := ReadEntry(a, account);
      return StateOf(read);
    }
  }

  // ----- nothing is lost -----

  /** The secret a slot truly has for an account. */
  function Truth(s: Slot, account: Account): Option<string> {
    if Primary(account) in s.held then Some(s.held[Primary(account)])
    else if s.password && Legacy(account) in s.held then Some(s.held[Legacy(account)])
    else None
  }

  /** A blank save that changes the key: whatever is refused or left unanswered, the secret of the
      old account is still there, or is now the new account's. */
  lemma BlankMoveKeepsTheSecret(s: Slot, a: Answers, from: Account, account: Account)
    requires from != account && Truth(s, from).Some?
    ensures var after := Store(s, a, Some(from), account, None);
            Truth(after, from) == Truth(s, from) || Truth(after, account) == Truth(s, from)
  {
  }

  /** Retiring old keys never touches the current one, even when it is owed, and drops its debt. */
  lemma RetireKeepsTheCurrentKey(s: Slot, account: Account, refuses: set<Key>)
    ensures var after := Retire(s, account, refuses);
            && (Primary(account) in after.held <==> Primary(account) in s.held)
            && (Primary(account) in s.held ==> after.held[Primary(account)] == s.held[Primary(account)])
            && Primary(account) !in after.owed
            && forall k :: k in after.held && k in s.owed && k != Primary(account) ==> k in after.owed
  {
  }

  /** What a save reports is so: a secret saved is there, one missing is not, whatever was deleted. */
  lemma StoreReportsTruth(s: Slot, a: Answers, stored: Option<Account>, account: Account, edit: Option<string>)
    requires s.Valid()
    ensures var after := Store(s, a, stored, account, edit);
            var state := StoreState(s, a, stored, account, edit);
            && (state == Saved ==> Truth(after, account).Some?)
            && (state == Missing ==> Truth(after, account).None?)
            && (state == Saved && edit.Some? ==> Truth(after, account) == edit)
            && (state == Error && edit.Some? && edit.value != "" ==> after.held == s.held)
  {
  }

  // ----- every secret is accounted for -----

  /** Every key that holds a secret belongs to the current account or is owed a delete. */
  predicate Accounted(s: Slot, current: Option<Account>) {
    && s.Valid()
    && forall k :: k in s.held ==> (current.Some? && k.account == current.value) || k in s.owed
  }

  /** The old account's legacy entry holds a secret that no one owes a delete. */
  predicate LeavesLegacy(s: Slot, stored: Option<Account>, account: Account) {
    Moves(stored, account) && Legacy(stored.value) in s.held && Legacy(stored.value) !in s.owed
  }

  /** The keys that hold a secret of another account and are owed no delete. */
  function Unaccounted(s: Slot, account: Account): set<Key> {
    set k | k in s.held && k.account != account && k !in s.owed
  }

  lemma RetireLeaves(s: Slot, account: Account, refuses: set<Key>)
    requires s.Valid()
    ensures Retire(s, account, refuses).Valid()
    ensures Unaccounted(Retire(s, account, refuses), account) == Unaccounted(s, account)
  {
  }

  lemma WriteLeaves(s: Slot, a: Answers, account: Account, secret: string)
    requires s.Valid()
    ensures WriteSlot(s, a, account, secret).Valid()
    ensures Unaccounted(WriteSlot(s, a, account, secret), account) == Unaccounted(s, account)
  {
  }

  lemma RemoveLeaves(s: Slot, a: Answers, account: Account)
    requires s.Valid()
    ensures RemoveSlot(s, a, account).Valid()
    ensures Unaccounted(RemoveSlot(s, a, account), account) == Unaccounted(s, account)
  {
  }

  lemma DeleteLeaves(s: Slot, k: Key, done: bool, account: Account)
    requires s.Valid() && k in s.owed
    ensures DeleteKey(s, k, done).Valid()
    ensures Unaccounted(DeleteKey(s, k, done), account) == Unaccounted(s, account)
  {
  }

  /** A save leaves unaccounted exactly what its start left so, once the old key is owed. */
  lemma StoreLeaves(s: Slot, a: Answers, stored: Option<Account>, account: Account, edit: Option<string>)
    requires s.Valid()
    ensures var owing := if Moves(stored, account) then s.(owed := s.owed + {Primary(stored.value)}) else s;
            && Store(s, a, stored, account, edit).Valid()
            && Unaccounted(Store(s, a, stored, account, edit), account) == Unaccounted(owing, account)
  {
    hide Retire, WriteSlot, RemoveSlot, DeleteKey, Unaccounted;
    var owing := if Moves(stored, account) then s.(owed := s.owed + {Primary(stored.value)}) else s;
    if edit.Some? && edit.value == "" {
      RemoveLeaves(owing, a, account);
      RetireLeaves(RemoveSlot(owing, a, account), account, a.refuses);
    } else {
      var secret :=
        if edit.Some? then edit.value
        else if Moves(stored, account) && ReadSlot(owing, a, stored.value).Found? then ReadSlot(owing, a, stored.value).secret
        else "";
      WriteLeaves(owing, a, account, secret);
      RetireLeaves(WriteSlot(owing, a, account, secret), account, a.refuses);
      if Moves(stored, account) {
        DeleteLeaves(owing, Primary(stored.value), a.deleteOld, account);
      }
    }
  }

  /** A save keeps every secret accounted for, except exactly a move away from a legacy entry. */
  lemma StoreKeepsAccounts(s: Slot, a: Answers, stored: Option<Account>, account: Account, edit: Option<string>)
    requires Accounted(s, stored)
    ensures Accounted(Store(s, a, stored, account, edit), Some(account)) <==> !LeavesLegacy(s, stored, account)
  {
    hide Store;
    StoreLeaves(s, a, stored, account, edit);
    var after := Store(s, a, stored, account, edit);
    if LeavesLegacy(s, stored, account) {
      assert Legacy(stored.value) in Unaccounted(after, account);
    } else {
      forall k | k in after.held
        ensures k.account == account || k in after.owed
      {
        assert k !in Unaccounted(after, account);
      }
    }
  }

  /** Forgetting a slot keeps every secret accounted for, and reports it missing only when the slot
      holds no secret anywhere any more, under any key it ever had. */
  lemma ForgetLeavesNothing(s: Slot, a: Answers, account: Account)
    requires Accounted(s, Some(account))
    ensures Accounted(ForgetSlot(s, a, account), Some(account))
    ensures ForgetState(s, a, account) == Missing ==>
              ForgetSlot(s, a, account).held == map[] && ForgetSlot(s, a, account).owed == {}
  {
    var owing := s.owed + KeysOf(s, account);
    assert forall k :: k in s.held ==> k in owing;
    if owing * a.refuses == {} {
      assert forall k :: k in owing && k in a.refuses ==> k in owing * a.refuses;
    }
  }

  // ----- any sequence of saves -----

  datatype Event =
    | SlotSaved(a: Answers, account: Account, edit: Option<string>)
    | Forgotten(a: Answers)

  /** The slot and the account of the profile as last saved. */
  datatype History = History(slot: Slot, stored: Option<Account>)

  /** Forgetting needs a saved profile. */
  function Handle(h: History, e: Event): History {
    match e
    case SlotSaved(a, account, edit) => History(Store(h.slot, a, h.stored, account, edit), Some(account))
    case Forgotten(a) => if h.stored.Some? then h.(slot := ForgetSlot(h.slot, a, h.stored.value)) else h
  }

  predicate LeavesLegacyBehind(h: History, e: Event) {
    e.SlotSaved? && LeavesLegacy(h.slot, h.stored, e.account)
  }

  predicate LegacyMoved(h: History, events: seq<Event>)
    decreases |events|
  {
    events != [] && (LeavesLegacyBehind(h, events[0]) || LegacyMoved(Handle(h, events[0]), events[1..]))
  }

  function HandleAll(h: History, events: seq<Event>): History
    decreases |events|
  {
    if events == [] then h else HandleAll(Handle(h, events[0]), events[1..])
  }

  /** Over any saves and forgets, every key that holds a secret is the current account's or is owed a
      delete, as long as no save moves away from a legacy entry. */
  lemma {:induction false} SecretsStayAccounted(h: History, events: seq<Event>)
    requires Accounted(h.slot, h.stored) && !LegacyMoved(h, events)
    ensures Accounted(HandleAll(h, events).slot, HandleAll(h, events).stored)
    decreases |events|
  {
    hide Accounted, LeavesLegacy, Store, ForgetSlot;
    if events != [] {
      match events[0] {
        case SlotSaved(a, account, edit) => StoreKeepsAccounts(h.slot, a, h.stored, account, edit);
        case Forgotten(a) =>
          if h.stored.Some? {
            ForgetLeavesNothing(h.slot, a, h.stored.value);
          }
      }
      SecretsStayAccounted(Handle(h, events[0]), events[1..]);
    }
  }

  /** The NickServ slot never had legacy entries, so there the promise holds over every history. */
  lemma {:induction false} NickServStaysAccounted(h: History, events: seq<Event>)
    requires Accounted(h.slot, h.stored) && !h.slot.password
    ensures !LegacyMoved(h, events)
    ensures Accounted(HandleAll(h, events).slot, HandleAll(h, events).stored)
    decreases |events|
  {
    if events != [] {
      var next := Handle(h, events[0]);
      match events[0] {
        case SlotSaved(a, account, edit) => StoreKeepsAccounts(h.slot, a, h.stored, account, edit);
        case Forgotten(a) =>
          if h.stored.Some? {
            ForgetLeavesNothing(h.slot, a, h.stored.value);
          }
      }
      hide Accounted, Store, ForgetSlot, Retire;
      SameSlot(h, events[0]);
      NickServStaysAccounted(next, events[1..]);
    }
  }

  lemma SameSlot(h: History, e: Event)
    ensures Handle(h, e).slot.password == h.slot.password
  {
  }

  // ----- any sequence of blank saves -----

  /** The slot holds this secret and no other, under one key or several. */
  predicate HoldsOnly(s: Slot, secret: string) {
    s.Valid() && s.held != map[] && forall k :: k in s.held ==> s.held[k] == secret
  }

  predicate BlankSaves(events: seq<Event>) {
    forall i :: 0 <= i < |events| ==> events[i].SlotSaved? && events[i].edit.None?
  }

  lemma RetireHoldsOnly(s: Slot, account: Account, refuses: set<Key>, secret: string)
    requires HoldsOnly(s, secret) && Primary(account) in s.held
    ensures HoldsOnly(Retire(s, account, refuses), secret)
  {
    assert Primary(account) in Retire(s, account, refuses).held;
  }

  lemma WriteHoldsOnly(s: Slot, a: Answers, account: Account, secret: string)
    requires HoldsOnly(s, secret)
    ensures HoldsOnly(WriteSlot(s, a, account, secret), secret)
    ensures a.write ==> Primary(account) in WriteSlot(s, a, account, secret).held
  {
    assert a.write ==> Primary(account) in WriteSlot(s, a, account, secret).held;
  }

  lemma DeleteHoldsOnly(s: Slot, k: Key, done: bool, secret: string)
    requires HoldsOnly(s, secret) && k !in s.held && !k.legacy
    ensures HoldsOnly(DeleteKey(s, k, done), secret)
  {
    assert s.held - {k} == s.held;
  }

  lemma BlankSaveHoldsOnly(s: Slot, a: Answers, stored: Option<Account>, account: Account, secret: string)
    requires HoldsOnly(s, secret)
    ensures HoldsOnly(Store(s, a, stored, account, None), secret)
  {
    hide Retire, WriteSlot;
    if Moves(stored, account) {
      var owing := s.(owed := s.owed + {Primary(stored.value)});
      var read := ReadSlot(owing, a, stored.value);
      if read.Found? {
        WriteHoldsOnly(owing, a, account, secret);
        if a.write {
          RetireHoldsOnly(WriteSlot(owing, a, account, secret), account, a.refuses, secret);
        }
      } else if read.Nothing? {
        DeleteHoldsOnly(owing, Primary(stored.value), a.deleteOld, secret);
      }
    }
  }

  lemma BlankSavedIsTheSecret(s: Slot, a: Answers, stored: Option<Account>, account: Account, secret: string)
    requires HoldsOnly(s, secret)
    ensures StoreState(s, a, stored, account, None) == Saved ==>
              Truth(Store(s, a, stored, account, None), account) == Some(secret)
  {
    hide Store, StoreState;
    BlankSaveHoldsOnly(s, a, stored, account, secret);
    StoreReportsTruth(s, a, stored, account, None);
  }

  /** Over any sequence of blank saves, whatever accounts they move between and whatever the store
      answers, the slot goes on holding the one secret it held, and a save reported saved has it. */
  lemma {:induction false} BlankSavesKeepTheSecret(h: History, events: seq<Event>, secret: string)
    requires HoldsOnly(h.slot, secret) && BlankSaves(events)
    ensures HoldsOnly(HandleAll(h, events).slot, secret)
    ensures var last := HandleAll(h, events);
            forall a, account :: StoreState(last.slot, a, last.stored, account, None) == Saved ==>
              Truth(Store(last.slot, a, last.stored, account, None), account) == Some(secret)
    decreases |events|
  {
    if events == [] {
      forall a, account | StoreState(h.slot, a, h.stored, account, None) == Saved
        ensures Truth(Store(h.slot, a, h.stored, account, None), account) == Some(secret)
      {
        BlankSavedIsTheSecret(h.slot, a, h.stored, account, secret);
      }
    } else {
      BlankSaveHoldsOnly(h.slot, events[0].a, h.stored, events[0].account, secret);
      hide HoldsOnly, Store, StoreState, Truth;
      BlankSavesKeepTheSecret(Handle(h, events[0]), events[1..], secret);
    }
  }

  /** The exception is real: a password still under its legacy entry is carried to a new account with
      every answer good, and its old entry keeps it with no delete owed. */
  lemma LegacyEntryIsLeft(from: Account, account: Account, secret: string)
    requires from != account
    ensures var s := Slot(true, map[Legacy(from) := secret], {});
            var after := Store(s, Answers({}, {}, true, true, true, true, {}), Some(from), account, None);
            && Accounted(s, Some(from))
            && Truth(after, account) == Some(secret)
            && Legacy(from) in after.held && Legacy(from) !in after.owed
  {
  }
}
