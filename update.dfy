/** The update step: how each message changes the application's state and its store.

    `Step` is the update as a function of the state before and the message; the method
    `Update` performs it in place on an `App` and is proved to agree with `Step`. The lemmas
    state what each message does and that every message keeps the invariant of
    `AppState`. An amount that does not parse is taken as zero, at the two places that read
    an amount. */
module Update {
  import opened Options
  import opened Amount
  import opened Messages
  import opened Store
  import opened Application

  /** The state after handling `message` in state `s`. */
  function Step(s: AppState, message: Message): AppState
  {
    match message
    case SplitWithInputChanged(value) => s.(splitWithInput := value)
    case AmountInputChanged(value) => s.(amountInput := value)
    case DescriptionInputChanged(value) => s.(descriptionInput := value)
    case SplitPayment => Split(s)
    case SettleUp(user) =>
      s.(settleWith := Some(user), settleAmountInput := "", activeTab := Tab.SettleUp(user))
    case SettleAmountChanged(value) => s.(settleAmountInput := value)
    case ConfirmSettleUp => Confirm(s)
    case SwitchToPayments => s.(activeTab := Payments)
    case SwitchToHistory => s.(activeTab := History)
  }

  /** `SplitPayment`: when both a friend's name and an amount were typed, create the friend
      if needed, record half the amount against them, read both lists back and empty the
      three split boxes; otherwise do nothing. */
  function Split(s: AppState): AppState
  {
    if s.splitWithInput != "" && s.amountInput != "" then
      var amountPerPerson := ParseAmount(s.amountInput).GetOr(0.0) / 2.0;
      var store := s.store.SplitWith(s.splitWithInput, s.descriptionInput, amountPerPerson);
      s.Reload(store).(splitWithInput := "", amountInput := "", descriptionInput := "")
    else
      s
  }

  /** `ConfirmSettleUp`: when a user is being settled with, settle the typed amount with them
      if one was typed and read both lists back; then leave the settle-up view. */
  function Confirm(s: AppState): AppState
  {
    match s.settleWith
    case None => s
    case Some(user) =>
      var settled :=
        if s.settleAmountInput != "" then
          var amount := ParseAmount(s.settleAmountInput).GetOr(0.0);
          s.Reload(s.store.SettlePayment(user, amount))
        else
          s;
      settled.(settleWith := None, settleAmountInput := "", activeTab := Payments)
  }

  /** `update`: handles one message, writing to the store where the message calls for it and
      then reading both lists back. */
  method Update(app: App, message: Message)
    modifies app, app.db
    ensures app.State() == Step(old(app.State()), message)
    ensures old(app.State()).Invariant() ==> app.State().Invariant()
  {
    match message {
      case SplitWithInputChanged(value) =>
        app.splitWithInput := value;
      case AmountInputChanged(value) =>
        app.amountInput := value;
      case DescriptionInputChanged(value) =>
        app.descriptionInput := value;
      case SplitPayment =>
        HandleSplit(app);
      case SettleUp(user) =>
        app.settleWith := Some(user);
        app.settleAmountInput := "";
        app.activeTab := Tab.SettleUp(user);
      case SettleAmountChanged(value) =>
        app.settleAmountInput := value;
      case ConfirmSettleUp =>
        HandleConfirm(app);
      case SwitchToPayments =>
        app.activeTab := Payments;
      case SwitchToHistory =>
        app.activeTab := History;
    }
    if old(app.State()).Invariant() {
      StepPreservesInvariant(old(app.State()), message);
    }
  }

  /** The `SplitPayment` arm of `update`. */
  method HandleSplit(app: App)
    modifies app, app.db
    ensures app.State() == Split(old(app.State()))
  {
    ghost var s := app.State();
    var name, amountText, description := app.splitWithInput, app.amountInput, app.descriptionInput;
    if name != "" && amountText != "" {
      var amount := ParseAmount(amountText).GetOr(0.0);
      var amountPerPerson := amount / 2.0;
      WriteSplit(app.db, name, description, amountPerPerson);
      var store := app.db.Snapshot();
      SplitReloads(s, store);
      app.payments := store.AllPayments();
      app.balances := store.BalancesWithUsers();
      app.splitWithInput := "";
      app.amountInput := "";
      app.descriptionInput := "";
    }
  }

  /** The two writes of the `SplitPayment` arm: `add_user` of the friend, then `add_payment`
      of the share against the id it returned. */
  method WriteSplit(db: Database, name: string, description: string, amount: real)
    modifies db
    ensures db.Snapshot() == old(db.Snapshot()).SplitWith(name, description, amount)
  {
    var friendId := db.AddUser(name);
    assert User(friendId, name) in db.users;
    db.AddPayment(description, amount, friendId);
  }

  /** The `ConfirmSettleUp` arm of `update`. */
  method HandleConfirm(app: App)
    modifies app, app.db
    ensures app.State() == Confirm(old(app.State()))
  {
    if app.settleWith.Some? {
      var user := app.settleWith.value;
      if app.settleAmountInput != "" {
        var amount := ParseAmount(app.settleAmountInput).GetOr(0.0);
        app.db.SettlePayment(user, amount);
        app.payments := app.db.Snapshot().AllPayments();
        app.balances := app.db.Snapshot().BalancesWithUsers();
      }
      app.settleWith := None;
      app.settleAmountInput := "";
      app.activeTab := Payments;
    }
  }

  // ---------------------------------------------------------------------------------------
  // What each message does

  /** Editing a text box overwrites that box's buffer and nothing else, the store included. */
  lemma EditsOverwriteOneBuffer(s: AppState, value: string)
    ensures Step(s, SplitWithInputChanged(value)) == s.(splitWithInput := value)
    ensures Step(s, AmountInputChanged(value)) == s.(amountInput := value)
    ensures Step(s, DescriptionInputChanged(value)) == s.(descriptionInput := value)
    ensures Step(s, SettleAmountChanged(value)) == s.(settleAmountInput := value)
  {
  }

  /** Splitting without a friend's name or without an amount changes nothing at all. */
  lemma SplitIgnoredWhenIncomplete(s: AppState)
    requires s.splitWithInput == "" || s.amountInput == ""
    ensures Split(s) == s
  {
  }

  /** Splitting with a friend's name and an amount writes to the store exactly this: the
      friend is created when no user has that name, and one unsettled payment of half the
      amount (zero when it does not parse), with the description typed, is recorded against
      the friend. */
  lemma SplitRecordsHalf(s: AppState)
    requires s.store.WellFormed()
    requires s.splitWithInput != "" && s.amountInput != ""
    ensures
      var name := s.splitWithInput;
      var half := ParseAmount(s.amountInput).GetOr(0.0) / 2.0;
      var after := Split(s).store;
      && FindByName(after.users, name).Some?
      && (FindByName(s.store.users, name).Some? ==>
            after.users == s.store.users && FindByName(after.users, name) == FindByName(s.store.users, name))
      && (FindByName(s.store.users, name).None? ==>
            after.users == s.store.users + [User(s.store.nextUserId, name)])
      && after.payments == s.store.payments +
           [Row(s.store.nextPaymentId, s.descriptionInput, half, FindByName(after.users, name).value.id, false)]
      && after.WellFormed()
  {
    var half := ParseAmount(s.amountInput).GetOr(0.0) / 2.0;
    SplitReloads(s, s.store.SplitWith(s.splitWithInput, s.descriptionInput, half));
    SplitWrites(s.store, s.splitWithInput, s.descriptionInput, half);
  }

  /** After a split the two lists are read back: the payment list gains the new payment,
      carrying the friend's name, and the friend's balance rises by half the amount. */
  lemma SplitUpdatesViews(s: AppState)
    requires s.store.WellFormed()
    requires s.splitWithInput != "" && s.amountInput != ""
    ensures
      var name := s.splitWithInput;
      var half := ParseAmount(s.amountInput).GetOr(0.0) / 2.0;
      var after := Split(s);
      var friendId := s.store.AddUser(name).1;
      && after.CacheCoherent()
      && after.payments ==
           s.store.AllPayments() + [Payment(s.store.nextPaymentId, s.descriptionInput, half, friendId, false, name)]
      && after.balances == s.store.BalancesWithUsers()[name := s.store.Balance(name) + half]
  {
    var half := ParseAmount(s.amountInput).GetOr(0.0) / 2.0;
    var store := s.store.SplitWith(s.splitWithInput, s.descriptionInput, half);
    SplitReloads(s, store);
    SplitViews(s.store, s.splitWithInput, s.descriptionInput, half);
    ReloadedViews(s, store, Split(s), s.store.AddUser(s.splitWithInput).1, half);
  }

  /** The cached lists of a state reloaded from the tables a split wrote. */
  lemma ReloadedViews(s: AppState, store: Tables, after: AppState, friendId: int, half: real)
    requires after == s.Reload(store).(splitWithInput := "", amountInput := "", descriptionInput := "")
    requires store.AllPayments() ==
               s.store.AllPayments() +
                 [Payment(s.store.nextPaymentId, s.descriptionInput, half, friendId, false, s.splitWithInput)]
    requires store.BalancesWithUsers() ==
               s.store.BalancesWithUsers()[s.splitWithInput := s.store.Balance(s.splitWithInput) + half]
    ensures after.CacheCoherent()
    ensures after.payments ==
              s.store.AllPayments() +
                [Payment(s.store.nextPaymentId, s.descriptionInput, half, friendId, false, s.splitWithInput)]
    ensures after.balances ==
              s.store.BalancesWithUsers()[s.splitWithInput := s.store.Balance(s.splitWithInput) + half]
  {
  }

  /** A split with both boxes filled stores the result of the two writes and reads both
      lists back from it. */
  lemma SplitReloads(s: AppState, store: Tables)
    requires s.splitWithInput != "" && s.amountInput != ""
    requires store == s.store.SplitWith(s.splitWithInput, s.descriptionInput,
                                        ParseAmount(s.amountInput).GetOr(0.0) / 2.0)
    ensures Split(s) == s.Reload(store).(splitWithInput := "", amountInput := "", descriptionInput := "")
  {
  }

  /** A split leaves the settle-up state and the tab alone and empties the three split boxes. */
  lemma SplitClearsItsBuffers(s: AppState)
    requires s.splitWithInput != "" && s.amountInput != ""
    ensures
      var after := Split(s);
      && after.splitWithInput == "" && after.amountInput == "" && after.descriptionInput == ""
      && after.settleAmountInput == s.settleAmountInput
      && after.settleWith == s.settleWith
      && after.activeTab == s.activeTab
  {
  }

  /** Choosing to settle up with a user records them as the one being settled with, empties
      the amount-to-settle box and shows their settle-up view; nothing else changes. */
  lemma SettleUpEntersView(s: AppState, user: string)
    ensures Step(s, Message.SettleUp(user)) ==
              s.(settleWith := Some(user), settleAmountInput := "", activeTab := Tab.SettleUp(user))
    ensures Step(s, Message.SettleUp(user)).TabLinked()
  {
  }

  /** Confirming while nobody is being settled with changes nothing, the tab included. */
  lemma ConfirmWithoutTargetIsNoOp(s: AppState)
    requires s.settleWith == None
    ensures Confirm(s) == s
  {
  }

  /** Confirming a settle-up writes to the store only when an amount was typed, and always
      ends it: nobody is being settled with, the box is empty and the Payments tab is shown. */
  lemma ConfirmEndsSettleUp(s: AppState, user: string)
    requires s.settleWith == Some(user)
    ensures
      var after := Confirm(s);
      && after.settleWith == None && after.settleAmountInput == "" && after.activeTab == Payments
      && after.splitWithInput == s.splitWithInput && after.amountInput == s.amountInput
      && after.descriptionInput == s.descriptionInput
      && (s.settleAmountInput == "" ==>
            after.store == s.store && after.payments == s.payments && after.balances == s.balances)
      && (s.settleAmountInput != "" ==>
            after.store == s.store.SettlePayment(user, ParseAmount(s.settleAmountInput).GetOr(0.0))
            && after.CacheCoherent())
  {
  }

  /** Confirming a settle-up of a typed amount with an existing user records the negated
      amount (zero when it does not parse) against them and lowers their balance by it. */
  lemma ConfirmLowersBalance(s: AppState, u: User)
    requires s.store.WellFormed()
    requires u in s.store.users
    requires s.settleWith == Some(u.name) && s.settleAmountInput != ""
    ensures
      var amount := ParseAmount(s.settleAmountInput).GetOr(0.0);
      var after := Confirm(s);
      && after.store.payments ==
           s.store.payments + [Row(s.store.nextPaymentId, SettlementPrefix + u.name, -amount, u.id, false)]
      && after.balances == s.store.BalancesWithUsers()[u.name := s.store.Balance(u.name) - amount]
  {
    LookupsFindUser(s.store, u);
    ConfirmSettlesFoundUser(s, u);
  }

  lemma ConfirmSettlesFoundUser(s: AppState, u: User)
    requires FindByName(s.store.users, u.name) == Some(u)
    requires FindById(s.store.users, u.id) == Some(u)
    requires s.settleWith == Some(u.name) && s.settleAmountInput != ""
    ensures
      var amount := ParseAmount(s.settleAmountInput).GetOr(0.0);
      var after := Confirm(s);
      && after.store.payments ==
           s.store.payments + [Row(s.store.nextPaymentId, SettlementPrefix + u.name, -amount, u.id, false)]
      && after.balances == s.store.BalancesWithUsers()[u.name := s.store.Balance(u.name) - amount]
  {
    var amount := ParseAmount(s.settleAmountInput).GetOr(0.0);
    SettledState(s, u, amount, s.store.SettlePayment(u.name, amount), Confirm(s));
  }

  /** The state after settling `amount` with a user found by both lookups. */
  lemma SettledState(s: AppState, u: User, amount: real, settled: Tables, after: AppState)
    requires FindByName(s.store.users, u.name) == Some(u)
    requires FindById(s.store.users, u.id) == Some(u)
    requires settled == s.store.SettlePayment(u.name, amount)
    requires after == s.Reload(settled).(settleWith := None, settleAmountInput := "", activeTab := Payments)
    ensures after.store.payments ==
              s.store.payments + [Row(s.store.nextPaymentId, SettlementPrefix + u.name, -amount, u.id, false)]
    ensures after.balances == s.store.BalancesWithUsers()[u.name := s.store.Balance(u.name) - amount]
  {
    SettleKnownUser(s.store, u, amount);
  }

  /** Confirming a settle-up with a name no user has writes nothing to the store. */
  lemma ConfirmUnknownUserWritesNothing(s: AppState, user: string)
    requires s.settleWith == Some(user)
    requires forall i :: 0 <= i < |s.store.users| ==> s.store.users[i].name != user
    ensures Confirm(s).store == s.store
  {
    SettleUnknownUser(s.store, user, ParseAmount(s.settleAmountInput).GetOr(0.0));
  }

  /** The two tab buttons change only the tab. Cancelling a settle-up this way leaves the
      user being settled with in place. */
  lemma SwitchesChangeOnlyTab(s: AppState)
    ensures Step(s, SwitchToPayments) == s.(activeTab := Payments)
    ensures Step(s, SwitchToHistory) == s.(activeTab := History)
    ensures Step(s, SwitchToPayments).settleWith == s.settleWith
  {
  }

  /** From a settle-up view, both Confirm and Cancel lead back to the Payments tab. */
  lemma SettleUpViewExitsToPayments(s: AppState, message: Message)
    requires s.TabLinked() && s.activeTab.SettleUp?
    requires message == ConfirmSettleUp || message == SwitchToPayments
    ensures Step(s, message).activeTab == Payments
  {
    if message == ConfirmSettleUp {
      ConfirmEndsSettleUp(s, s.activeTab.user);
    }
  }

  // ---------------------------------------------------------------------------------------
  // The invariant

  /** Every message keeps the store well formed, the settle-up tab linked to the user being
      settled with, and the cached lists equal to what the store returns. */
  lemma StepPreservesInvariant(s: AppState, message: Message)
    requires s.Invariant()
    ensures Step(s, message).Invariant()
  {
    match message
    case SplitPayment =>
      if s.splitWithInput != "" && s.amountInput != "" {
        SplitRecordsHalf(s);
        SplitUpdatesViews(s);
        SplitClearsItsBuffers(s);
      }
    case ConfirmSettleUp =>
      if s.settleWith.Some? && s.settleAmountInput != "" {
        SettlePaymentWellFormed(s.store, s.settleWith.value, ParseAmount(s.settleAmountInput).GetOr(0.0));
      }
    case _ =>
  }

  /** The state after handling `messages` one after another. */
  function Run(s: AppState, messages: seq<Message>): AppState
    decreases |messages|
  {
    if messages == [] then s else Run(Step(s, messages[0]), messages[1..])
  }

  /** Every state reached from the initial state over a well-formed store satisfies the
      invariant. */
  lemma {:induction false} RunPreservesInvariant(s: AppState, messages: seq<Message>)
    requires s.Invariant()
    ensures Run(s, messages).Invariant()
    decreases |messages|
  {
    if messages != [] {
      StepPreservesInvariant(s, messages[0]);
      RunPreservesInvariant(Step(s, messages[0]), messages[1..]);
    }
  }

  lemma ReachableStatesAreValid(store: Tables, messages: seq<Message>)
    requires store.WellFormed()
    ensures Run(Init(store), messages).Invariant()
  {
    InitInvariant(store);
    RunPreservesInvariant(Init(store), messages);
  }
}
