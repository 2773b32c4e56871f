/** The GUI framework's entry points for the application: both delegate to the inherent
    constructor and to the update dispatcher. */
module Sandbox {
  import opened Store
  import opened Application
  import opened Messages
  import Update

  /** `<App as Sandbox>::new`: the store is opened holding `existing` and the application
      starts on it in a state satisfying its invariant when the store is well formed. */
  method NewApp(existing: Tables) returns (app: App)
    ensures fresh(app) && fresh(app.db)
    ensures app.State() == Init(existing)
    ensures existing.WellFormed() ==> app.State().Invariant()
  {
    var db := new Database.Open(existing);
    app := new App(db);
    if existing.WellFormed() {
      InitInvariant(existing);
    }
  }

  /** `<App as Sandbox>::update`: hands the message to the update dispatcher. */
  method HandleMessage(app: App, message: Message)
    modifies app, app.db
    ensures app.State() == Update.Step(old(app.State()), message)
    ensures old(app.State()).Invariant() ==> app.State().Invariant()
  {
    Update.Update(app, message);
  }
}
