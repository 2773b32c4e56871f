/** The application's state record: four text buffers, the user being settled with, the
    payments and balances last read from the store, the active tab, and the store itself. */
module Application {
  import opened Options
  import opened Store

  /** Which view is shown. `SettleUp` carries the name of the user being settled with. */
  datatype Tab = Payments | SettleUp(user: string) | History

  /** The value of an `App` at one moment, the store's tables included. */
  datatype AppState = AppState(
    store: Tables,
    splitWithInput: string,
    amountInput: string,
    descriptionInput: string,
    settleAmountInput: string,
    settleWith: Option<string>,
    payments: seq<Payment>,
    balances: map<string, real>,
    activeTab: Tab)
  {
    /** The settle-up view always shows the user that a confirm would settle with. */
    predicate TabLinked() {
      activeTab.SettleUp? ==> settleWith == Some(activeTab.user)
    }

    /** The cached lists are what the store's two queries return now. */
    predicate CacheCoherent() {
      payments == store.AllPayments() && balances == store.BalancesWithUsers()
    }

    /** This state with `store` written and both cached lists read back from it. */
    function Reload(store: Tables): AppState {
      this.(store := store, payments := store.AllPayments(), balances := store.BalancesWithUsers())
    }

    /** What holds in every state the application reaches. */
    predicate Invariant() {
      store.WellFormed() && TabLinked() && CacheCoherent()
    }
  }

  /** `App::new` over a store holding `store`. */
  function Init(store: Tables): AppState {
    AppState(store, "", "", "", "", None, store.AllPayments(), store.BalancesWithUsers(), Payments)
  }

  /** The application starts in a state satisfying its invariant. */
  lemma InitInvariant(store: Tables)
    requires store.WellFormed()
    ensures Init(store).Invariant()
  {
  }

  /** On a store without payments both cached lists start empty. */
  lemma InitOnEmptyStore(store: Tables)
    requires store.payments == []
    ensures Init(store).payments == []
    ensures Init(store).balances == map[]
  {
  }

  class App {
    const db: Database
    var splitWithInput: string
    var amountInput: string
    var descriptionInput: string
    var settleAmountInput: string
    var settleWith: Option<string>
    var payments: seq<Payment>
    var balances: map<string, real>
    var activeTab: Tab

    /** The application's state as a value. */
    function State(): AppState
      reads this, db
    {
      AppState(db.Snapshot(), splitWithInput, amountInput, descriptionInput, settleAmountInput,
               settleWith, payments, balances, activeTab)
    }

    /** `App::new`: every buffer empty, nobody being settled with, the Payments tab, and both
        lists read from the store. */
    constructor (db: Database)
      ensures this.db == db
      ensures splitWithInput == "" && amountInput == "" && descriptionInput == ""
      ensures settleAmountInput == ""
      ensures settleWith == None && activeTab == Payments
      ensures payments == db.Snapshot().AllPayments()
      ensures balances == db.Snapshot().BalancesWithUsers()
      ensures State() == Init(db.Snapshot())
    {
      this.db := db;
      payments := db.Snapshot().AllPayments();
      balances := db.Snapshot().BalancesWithUsers();
      splitWithInput := "";
      amountInput := "";
      descriptionInput := "";
      settleAmountInput := "";
      settleWith := None;
      activeTab := Payments;
    }
  }
}
