/** The relational store: a `users` table and a `payments` table, their three writers and
    their three queries.

    The tables are values (`Tables`); the queries are functions of them, and every write is
    a function from the tables before to the tables after. The class `Database` holds the
    tables of one open database and performs the writes in place. Identities are issued as
    AUTOINCREMENT does: from a counter that starts at 1 and is never reused. */
module Store {
  import opened Options

  datatype User = User(id: int, name: string)

  /** One row of the `payments` table as stored. */
  datatype Row = Row(id: int, description: string, amount: real, payeeId: int, isSettled: bool)

  /** A payment as the read path returns it: its row joined with its payee's name. */
  datatype Payment = Payment(
    id: int, description: string, amount: real, payeeId: int, isSettled: bool, payeeName: string)

  /** The description `settle_payment` gives the row it writes, before the user's name. */
  const SettlementPrefix: string := "Settlement with "

  /** `SELECT id, name FROM users WHERE name = ?`: the user of that name, if any. */
  function FindByName(users: seq<User>, name: string): (r: Option<User>)
    ensures r.Some? ==> r.value in users && r.value.name == name
    ensures r.None? <==> forall i :: 0 <= i < |users| ==> users[i].name != name
  {
    if users == [] then None
    else if users[0].name == name then Some(users[0])
    else FindByName(users[1..], name)
  }

  /** The user whose id is `id`, if any: the `JOIN users ON payee_id = users.id` side of the
      two queries. */
  function FindById(users: seq<User>, id: int): (r: Option<User>)
    ensures r.Some? ==> r.value in users && r.value.id == id
    ensures r.None? <==> forall i :: 0 <= i < |users| ==> users[i].id != id
  {
    if users == [] then None
    else if users[0].id == id then Some(users[0])
    else FindById(users[1..], id)
  }

  /** The users in the order they were inserted: ids increase from 1 and stay below the
      counter, and no user takes a name some earlier user has. Increasing ids are unique. */
  predicate UsersWellFormed(users: seq<User>, nextUserId: int) {
    && 1 <= nextUserId
    && (users == [] ||
        var last := users[|users| - 1];
        && UsersWellFormed(users[..|users| - 1], last.id)
        && last.id < nextUserId
        && FindByName(users[..|users| - 1], last.name).None?)
  }

  /** The payments in the order they were inserted: ids increase from 1 and stay below the
      counter. */
  predicate RowsWellFormed(rows: seq<Row>, nextPaymentId: int) {
    && 1 <= nextPaymentId
    && (rows == [] ||
        (RowsWellFormed(rows[..|rows| - 1], rows[|rows| - 1].id) && rows[|rows| - 1].id < nextPaymentId))
  }

  /** Every row names a payee that exists (the foreign key on `payee_id`). */
  predicate PayeesExist(users: seq<User>, rows: seq<Row>) {
    forall i :: 0 <= i < |rows| ==> FindById(users, rows[i].payeeId).Some?
  }

  function Joined(row: Row, payeeName: string): Payment {
    Payment(row.id, row.description, row.amount, row.payeeId, row.isSettled, payeeName)
  }

  /** The inner join of the payments with the users, in row order: a row whose payee does
      not exist is dropped, every other row carries its payee's current name. */
  function Join(users: seq<User>, rows: seq<Row>): (r: seq<Payment>)
    ensures |r| <= |rows|
  {
    if rows == [] then []
    else
      var last := rows[|rows| - 1];
      match FindById(users, last.payeeId)
      case Some(u) => Join(users, rows[..|rows| - 1]) + [Joined(last, u.name)]
      case None => Join(users, rows[..|rows| - 1])
  }

  /** The total of the amounts of the payments whose payee is called `name`. */
  function SumFor(ps: seq<Payment>, name: string): real {
    if ps == [] then 0.0
    else
      var last := ps[|ps| - 1];
      SumFor(ps[..|ps| - 1], name) + (if last.payeeName == name then last.amount else 0.0)
  }

  /** Whether some payment of `ps` has a payee called `name`. */
  predicate HasPayment(ps: seq<Payment>, name: string) {
    exists i :: 0 <= i < |ps| && ps[i].payeeName == name
  }

  /** The entry of `name` in `m`, zero when there is none. */
  function Lookup(m: map<string, real>, name: string): real {
    if name in m then m[name] else 0.0
  }

  /** `GROUP BY u.name` with `SUM(p.amount)`, computed in one pass: each payment adds its
      amount to the entry of its payee's name, starting that entry at zero when it is missing. */
  function GroupByName(ps: seq<Payment>): map<string, real> {
    if ps == [] then map[]
    else
      var groups := GroupByName(ps[..|ps| - 1]);
      var last := ps[|ps| - 1];
      groups[last.payeeName := Lookup(groups, last.payeeName) + last.amount]
  }

  datatype Tables = Tables(users: seq<User>, payments: seq<Row>, nextUserId: int, nextPaymentId: int)
  {
    /** What every state the program reaches satisfies: the users table and the payments
        table are each well formed, and every payment's payee is present. */
    predicate WellFormed() {
      UsersWellFormed(users, nextUserId) && RowsWellFormed(payments, nextPaymentId)
      && PayeesExist(users, payments)
    }

    /** `add_user`: look the name up first; insert only when it is missing. The result is
        the new tables and the id now standing for `name`. */
    function AddUser(name: string): (r: (Tables, int))
      ensures FindByName(r.0.users, name) == Some(User(r.1, name))
      ensures r.0.payments == payments && r.0.nextPaymentId == nextPaymentId
      ensures users <= r.0.users && |r.0.users| <= |users| + 1
    {
      match FindByName(users, name)
      case Some(u) => (this, u.id)
      case None =>
        FindByNameAppend(users, User(nextUserId, name), name);
        (this.(users := users + [User(nextUserId, name)], nextUserId := nextUserId + 1), nextUserId)
    }

    /** `add_payment`: insert one unsettled row for an existing payee. */
    function AddPayment(description: string, amount: real, payeeId: int): Tables
      requires FindById(users, payeeId).Some?
    {
      this.(payments := payments + [Row(nextPaymentId, description, amount, payeeId, false)],
            nextPaymentId := nextPaymentId + 1)
    }

    /** `settle_payment`: when a user is called `userName`, insert a row of the negated amount
        against them; otherwise write nothing. */
    function SettlePayment(userName: string, amount: real): Tables
    {
      match FindByName(users, userName)
      case None => this
      case Some(u) =>
        this.(payments := payments + [Row(nextPaymentId, SettlementPrefix + userName, -amount, u.id, false)],
              nextPaymentId := nextPaymentId + 1)
    }

    /** The two writes of a split, in the order `update` makes them: `add_user` of the
        friend, then `add_payment` of `amount` against the id that returned. */
    function SplitWith(name: string, description: string, amount: real): Tables
    {
      var added := AddUser(name);
      assert User(added.1, name) in added.0.users;
      added.0.AddPayment(description, amount, added.1)
    }

    /** `get_all_payments`. */
    function AllPayments(): seq<Payment> {
      Join(users, payments)
    }

    /** `get_balances_with_users`, as a map from name to balance (the query fixes no order). */
    function BalancesWithUsers(): map<string, real> {
      GroupByName(AllPayments())
    }

    /** The balance listed for `name`, zero when it is not listed. */
    function Balance(name: string): real {
      Lookup(BalancesWithUsers(), name)
    }
  }

  // ---------------------------------------------------------------------------------------
  // Lookups on a table that grows at the end

  /** A lookup by name finds the first match, so appending a user changes only a miss. */
  lemma {:induction false} FindByNameAppend(users: seq<User>, u: User, name: string)
    ensures FindByName(users + [u], name) ==
              if FindByName(users, name).Some? then FindByName(users, name)
              else if u.name == name then Some(u) else None
  {
    if users != [] {
      assert (users + [u])[1..] == users[1..] + [u];
      FindByNameAppend(users[1..], u, name);
    }
  }

  /** A lookup by id finds the first match, so appending a user changes only a miss. */
  lemma {:induction false} FindByIdAppend(users: seq<User>, u: User, id: int)
    ensures FindById(users + [u], id) ==
              if FindById(users, id).Some? then FindById(users, id)
              else if u.id == id then Some(u) else None
  {
    if users != [] {
      assert (users + [u])[1..] == users[1..] + [u];
      FindByIdAppend(users[1..], u, id);
    }
  }

  /** Every user id lies between 1 and the counter. */
  lemma {:induction false} UserIdsBelow(users: seq<User>, nextUserId: int)
    requires UsersWellFormed(users, nextUserId)
    ensures forall i :: 0 <= i < |users| ==> 1 <= users[i].id < nextUserId
  {
    if users != [] {
      var front := users[..|users| - 1];
      UserIdsBelow(front, users[|users| - 1].id);
      assert forall i :: 0 <= i < |front| ==> users[i] == front[i];
    }
  }

  /** In well-formed users, both lookups of the user at position `k` return that user: names
      and ids are unique. */
  lemma {:induction false} UserLookups(users: seq<User>, nextUserId: int, k: int)
    requires UsersWellFormed(users, nextUserId)
    requires 0 <= k < |users|
    ensures FindByName(users, users[k].name) == Some(users[k])
    ensures FindById(users, users[k].id) == Some(users[k])
  {
    var front := users[..|users| - 1];
    var last := users[|users| - 1];
    assert users == front + [last];
    FindByNameAppend(front, last, users[k].name);
    FindByIdAppend(front, last, users[k].id);
    if k == |users| - 1 {
      UserIdsBelow(front, last.id);
    } else {
      assert users[k] == front[k];
      UserLookups(front, last.id, k);
    }
  }

  /** Well-formed users have pairwise distinct names (the UNIQUE constraint on `name`) and
      pairwise distinct ids (the primary key). */
  lemma {:induction false} UsersDistinct(users: seq<User>, nextUserId: int)
    requires UsersWellFormed(users, nextUserId)
    ensures forall i, j :: 0 <= i < j < |users| ==> users[i].name != users[j].name && users[i].id != users[j].id
  {
    if users != [] {
      var front := users[..|users| - 1];
      var last := users[|users| - 1];
      UsersDistinct(front, last.id);
      UserIdsBelow(front, last.id);
      forall i, j | 0 <= i < j < |users|
        ensures users[i].name != users[j].name && users[i].id != users[j].id
      {
        assert users[i] == front[i];
        if j < |users| - 1 {
          assert users[j] == front[j];
        }
      }
    }
  }

  // ---------------------------------------------------------------------------------------
  // The join and the sums

  /** Every joined payment carries the name of the user whose id is its payee id, and the
      join has no more entries than there are rows. */
  lemma {:induction false} JoinNames(users: seq<User>, rows: seq<Row>)
    ensures forall i :: 0 <= i < |Join(users, rows)| ==>
              FindById(users, Join(users, rows)[i].payeeId) ==
                Some(User(Join(users, rows)[i].payeeId, Join(users, rows)[i].payeeName))
  {
    if rows != [] {
      JoinNames(users, rows[..|rows| - 1]);
    }
  }

  /** Under the foreign key, the join drops no row: entry `i` is row `i` with its payee's name. */
  lemma {:induction false} JoinComplete(users: seq<User>, rows: seq<Row>)
    requires PayeesExist(users, rows)
    ensures |Join(users, rows)| == |rows|
    ensures forall i :: 0 <= i < |rows| ==>
              Join(users, rows)[i] == Joined(rows[i], FindById(users, rows[i].payeeId).value.name)
  {
    if rows != [] {
      var front := rows[..|rows| - 1];
      assert PayeesExist(users, front) by {
        forall i | 0 <= i < |front| ensures FindById(users, front[i].payeeId).Some? {
          assert front[i] == rows[i];
        }
      }
      JoinComplete(users, front);
    }
  }

  /** Appending a user whose id no row mentions leaves the join unchanged. */
  lemma {:induction false} JoinAddUser(users: seq<User>, u: User, rows: seq<Row>)
    requires PayeesExist(users, rows)
    ensures Join(users + [u], rows) == Join(users, rows)
  {
    if rows != [] {
      var front := rows[..|rows| - 1];
      assert PayeesExist(users, front) by {
        forall i | 0 <= i < |front| ensures FindById(users, front[i].payeeId).Some? {
          assert front[i] == rows[i];
        }
      }
      JoinAddUser(users, u, front);
      FindByIdAppend(users, u, rows[|rows| - 1].payeeId);
    }
  }

  /** Appending a row whose payee exists appends its joined payment. */
  lemma JoinAddRow(users: seq<User>, rows: seq<Row>, row: Row)
    requires FindById(users, row.payeeId).Some?
    ensures Join(users, rows + [row]) ==
              Join(users, rows) + [Joined(row, FindById(users, row.payeeId).value.name)]
  {
    assert (rows + [row])[..|rows|] == rows;
  }

  /** The grouping has an entry for exactly the names that have a payment, and each entry
      is the total of that name's payments. */
  lemma {:induction false} GroupByNameSums(ps: seq<Payment>, name: string)
    ensures name in GroupByName(ps) <==> HasPayment(ps, name)
    ensures Lookup(GroupByName(ps), name) == SumFor(ps, name)
  {
    if ps != [] {
      var front := ps[..|ps| - 1];
      GroupByNameSums(front, name);
      if HasPayment(front, name) {
        var i :| 0 <= i < |front| && front[i].payeeName == name;
        assert ps[i].payeeName == name;
      }
      if HasPayment(ps, name) && ps[|ps| - 1].payeeName != name {
        var i :| 0 <= i < |ps| && ps[i].payeeName == name;
        assert front[i].payeeName == name;
      }
    }
  }

  /** One more payment adds its amount to its payee's entry, creating the entry when the
      payee had none, and leaves every other entry alone. */
  lemma GroupByNameAppend(ps: seq<Payment>, p: Payment)
    ensures GroupByName(ps + [p]) ==
              GroupByName(ps)[p.payeeName := Lookup(GroupByName(ps), p.payeeName) + p.amount]
  {
    assert (ps + [p])[..|ps|] == ps;
  }

  /** A store's balance of a name is the total of the amounts of that name's payments. */
  lemma BalanceIsSum(t: Tables, name: string)
    ensures t.Balance(name) == SumFor(t.AllPayments(), name)
  {
    GroupByNameSums(t.AllPayments(), name);
  }

  // ---------------------------------------------------------------------------------------
  // The writers keep the tables well formed and move the views as stated

  /** Adding a name that is already present returns its id and writes nothing. */
  lemma AddUserExisting(t: Tables, u: User)
    requires FindByName(t.users, u.name) == Some(u)
    ensures t.AddUser(u.name) == (t, u.id)
  {
  }

  /** Adding a new name appends exactly one user, under a positive id no user had. */
  lemma AddUserNew(t: Tables, name: string)
    requires t.WellFormed()
    requires FindByName(t.users, name).None?
    ensures t.AddUser(name).0.users == t.users + [User(t.AddUser(name).1, name)]
    ensures t.AddUser(name).1 > 0
    ensures forall i :: 0 <= i < |t.users| ==> t.users[i].id != t.AddUser(name).1
  {
    UserIdsBelow(t.users, t.nextUserId);
  }

  /** `add_user` is idempotent: a second call with the same name returns the same id and
      writes nothing. */
  lemma AddUserIdempotent(t: Tables, name: string)
    ensures t.AddUser(name).0.AddUser(name) == t.AddUser(name)
  {
    var (t1, id) := t.AddUser(name);
    AddUserExisting(t1, User(id, name));
  }

  lemma AddUserWellFormed(t: Tables, name: string)
    requires t.WellFormed()
    ensures t.AddUser(name).0.WellFormed()
  {
    if FindByName(t.users, name).None? {
      var u := User(t.nextUserId, name);
      forall i | 0 <= i < |t.payments|
        ensures FindById(t.users + [u], t.payments[i].payeeId).Some?
      {
        FindByIdAppend(t.users, u, t.payments[i].payeeId);
      }
    }
  }

  /** Appending a row with a fresh id and an existing payee keeps the tables well formed. */
  lemma AppendRowWellFormed(t: Tables, row: Row)
    requires t.WellFormed()
    requires row.id == t.nextPaymentId
    requires FindById(t.users, row.payeeId).Some?
    ensures t.(payments := t.payments + [row], nextPaymentId := t.nextPaymentId + 1).WellFormed()
  {
    var rows := t.payments + [row];
    var n := |t.payments|;
    assert forall i :: 0 <= i < n ==> rows[i] == t.payments[i];
    assert RowsWellFormed(rows, t.nextPaymentId + 1);
    assert PayeesExist(t.users, rows) by {
      forall i | 0 <= i < n + 1 ensures FindById(t.users, rows[i].payeeId).Some? {
        if i < n { assert rows[i] == t.payments[i]; }
      }
    }
  }

  lemma AddPaymentWellFormed(t: Tables, description: string, amount: real, payeeId: int)
    requires t.WellFormed()
    requires FindById(t.users, payeeId).Some?
    ensures t.AddPayment(description, amount, payeeId).WellFormed()
  {
    AppendRowWellFormed(t, Row(t.nextPaymentId, description, amount, payeeId, false));
  }

  lemma SettlePaymentWellFormed(t: Tables, userName: string, amount: real)
    requires t.WellFormed()
    ensures t.SettlePayment(userName, amount).WellFormed()
  {
    var found := FindByName(t.users, userName);
    if found.Some? {
      var u := found.value;
      assert FindById(t.users, u.id).Some?;
      AppendRowWellFormed(t, Row(t.nextPaymentId, SettlementPrefix + userName, -amount, u.id, false));
    }
  }

  /** Creating a user changes neither query: a user without payments is invisible to both. */
  lemma AddUserKeepsViews(t: Tables, name: string)
    requires t.WellFormed()
    ensures t.AddUser(name).0.AllPayments() == t.AllPayments()
    ensures t.AddUser(name).0.BalancesWithUsers() == t.BalancesWithUsers()
  {
    if FindByName(t.users, name).None? {
      JoinAddUser(t.users, User(t.nextUserId, name), t.payments);
    }
  }

  /** `add_payment` appends one unsettled payment carrying the payee's name to what
      `get_all_payments` returns. */
  lemma AddPaymentJoin(t: Tables, description: string, amount: real, payee: User)
    requires FindById(t.users, payee.id) == Some(payee)
    ensures t.AddPayment(description, amount, payee.id).AllPayments() ==
              t.AllPayments() + [Payment(t.nextPaymentId, description, amount, payee.id, false, payee.name)]
  {
    var row := Row(t.nextPaymentId, description, amount, payee.id, false);
    var paid := t.AddPayment(description, amount, payee.id);
    assert paid.users == t.users && paid.payments == t.payments + [row];
    JoinAddRow(t.users, t.payments, row);
  }

  /** `add_payment` adds its amount to its payee's balance, creating the entry when the payee
      had none, and leaves every other balance alone. */
  lemma AddPaymentBalances(t: Tables, description: string, amount: real, payee: User)
    requires FindById(t.users, payee.id) == Some(payee)
    ensures t.AddPayment(description, amount, payee.id).BalancesWithUsers() ==
              t.BalancesWithUsers()[payee.name := t.Balance(payee.name) + amount]
    ensures t.AddPayment(description, amount, payee.id).Balance(payee.name) ==
              t.Balance(payee.name) + amount
  {
    var p := Payment(t.nextPaymentId, description, amount, payee.id, false, payee.name);
    var ps := t.AllPayments();
    AddPaymentJoin(t, description, amount, payee);
    GroupByNameAppend(ps, p);
  }

  /** `settle_payment` with a name no user has writes nothing. */
  lemma SettleUnknownUser(t: Tables, userName: string, amount: real)
    requires forall i :: 0 <= i < |t.users| ==> t.users[i].name != userName
    ensures t.SettlePayment(userName, amount) == t
  {
  }

  /** In a well-formed store, both lookups of a user of the table return that user. */
  lemma LookupsFindUser(t: Tables, u: User)
    requires t.WellFormed()
    requires u in t.users
    ensures FindByName(t.users, u.name) == Some(u)
    ensures FindById(t.users, u.id) == Some(u)
  {
    var k :| 0 <= k < |t.users| && t.users[k] == u;
    UserLookups(t.users, t.nextUserId, k);
  }

  /** `settle_payment` with a user's name appends one payment of the negated amount described
      as a settlement with them, and lowers their balance by the amount. */
  lemma SettleKnownUser(t: Tables, u: User, amount: real)
    requires FindByName(t.users, u.name) == Some(u)
    requires FindById(t.users, u.id) == Some(u)
    ensures t.SettlePayment(u.name, amount).payments ==
              t.payments + [Row(t.nextPaymentId, SettlementPrefix + u.name, -amount, u.id, false)]
    ensures t.SettlePayment(u.name, amount).AllPayments() ==
              t.AllPayments() + [Payment(t.nextPaymentId, SettlementPrefix + u.name, -amount, u.id, false, u.name)]
    ensures t.SettlePayment(u.name, amount).BalancesWithUsers() ==
              t.BalancesWithUsers()[u.name := t.Balance(u.name) - amount]
  {
    assert t.SettlePayment(u.name, amount) == t.AddPayment(SettlementPrefix + u.name, -amount, u.id);
    AddPaymentJoin(t, SettlementPrefix + u.name, -amount, u);
    AddPaymentBalances(t, SettlementPrefix + u.name, -amount, u);
  }

  /** A balance entry is there only because some user of that name has a payment row. */
  lemma BalanceEntryHasPayment(t: Tables, name: string)
    requires t.WellFormed()
    requires name in t.BalancesWithUsers()
    ensures exists i, k :: 0 <= i < |t.payments| && 0 <= k < |t.users| &&
              t.users[k].name == name && t.payments[i].payeeId == t.users[k].id
  {
    var ps := t.AllPayments();
    JoinComplete(t.users, t.payments);
    GroupByNameSums(ps, name);
    var i :| 0 <= i < |ps| && ps[i].payeeName == name;
    var u := FindById(t.users, t.payments[i].payeeId).value;
    assert ps[i] == Joined(t.payments[i], u.name);
    var k :| 0 <= k < |t.users| && t.users[k] == u;
    assert t.users[k].name == name && t.payments[i].payeeId == t.users[k].id;
  }

  /** A user with a payment row has a balance entry under their name. */
  lemma PaymentGivesBalanceEntry(t: Tables, i: int, k: int)
    requires t.WellFormed()
    requires 0 <= i < |t.payments| && 0 <= k < |t.users|
    requires t.payments[i].payeeId == t.users[k].id
    ensures t.users[k].name in t.BalancesWithUsers()
  {
    var ps := t.AllPayments();
    JoinComplete(t.users, t.payments);
    UserLookups(t.users, t.nextUserId, k);
    assert ps[i] == Joined(t.payments[i], t.users[k].name);
    assert HasPayment(ps, t.users[k].name);
    GroupByNameSums(ps, t.users[k].name);
  }

  /** In a well-formed store, a name has a balance entry exactly when some user of that name
      is the payee of some payment row: a user with no payments does not appear, and neither
      does a name no user has. */
  lemma BalancePresence(t: Tables, name: string)
    requires t.WellFormed()
    ensures name in t.BalancesWithUsers() <==>
              exists i, k :: 0 <= i < |t.payments| && 0 <= k < |t.users| &&
                t.users[k].name == name && t.payments[i].payeeId == t.users[k].id
  {
    if name in t.BalancesWithUsers() {
      BalanceEntryHasPayment(t, name);
    }
    if exists i, k :: 0 <= i < |t.payments| && 0 <= k < |t.users| &&
         t.users[k].name == name && t.payments[i].payeeId == t.users[k].id {
      var i, k :| 0 <= i < |t.payments| && 0 <= k < |t.users| &&
        t.users[k].name == name && t.payments[i].payeeId == t.users[k].id;
      PaymentGivesBalanceEntry(t, i, k);
    }
  }

  /** A payment recorded against a user and then settled for the same amount leaves the
      user's balance where it was. */
  lemma SettleCancelsPayment(t: Tables, u: User, description: string, amount: real)
    requires t.WellFormed()
    requires u in t.users
    ensures t.AddPayment(description, amount, u.id).SettlePayment(u.name, amount).BalancesWithUsers() ==
              t.BalancesWithUsers()[u.name := t.Balance(u.name)]
  {
    LookupsFindUser(t, u);
    PaymentThenSettlement(t, u, description, amount);
  }

  lemma PaymentThenSettlement(t: Tables, u: User, description: string, amount: real)
    requires FindByName(t.users, u.name) == Some(u)
    requires FindById(t.users, u.id) == Some(u)
    ensures t.AddPayment(description, amount, u.id).SettlePayment(u.name, amount).BalancesWithUsers() ==
              t.BalancesWithUsers()[u.name := t.Balance(u.name)]
  {
    var paid := t.AddPayment(description, amount, u.id);
    AddPaymentBalances(t, description, amount, u);
    assert paid.users == t.users;
    SettleKnownUser(paid, u, amount);
    UpdateThenUndo(t.BalancesWithUsers(), paid.BalancesWithUsers(),
                   paid.SettlePayment(u.name, amount).BalancesWithUsers(),
                   u.name, t.Balance(u.name), paid.Balance(u.name), amount);
  }

  /** Raising one entry by an amount and then lowering it by the same amount restores it. */
  lemma UpdateThenUndo(before: map<string, real>, mid: map<string, real>, after: map<string, real>,
                       key: string, was: real, raised: real, amount: real)
    requires mid == before[key := was + amount] && raised == was + amount
    requires after == mid[key := raised - amount]
    ensures after == before[key := was]
  {
  }

  /** A user without payments has a balance of zero. */
  lemma NoPaymentsZeroBalance(t: Tables, u: User)
    requires t.WellFormed()
    requires u in t.users
    requires forall i :: 0 <= i < |t.payments| ==> t.payments[i].payeeId != u.id
    ensures u.name !in t.BalancesWithUsers()
    ensures t.Balance(u.name) == 0.0
  {
    LookupsFindUser(t, u);
    forall i, k | 0 <= i < |t.payments| && 0 <= k < |t.users| && t.users[k].name == u.name
      ensures t.payments[i].payeeId != t.users[k].id
    {
      UserLookups(t.users, t.nextUserId, k);
    }
    BalancePresence(t, u.name);
  }

  /** Splitting with a user who had no payments and then settling the same amount brings
      their balance to exactly zero, and it is listed. */
  lemma PayThenSettleIsZero(t: Tables, u: User, description: string, amount: real)
    requires t.WellFormed()
    requires u in t.users
    requires forall i :: 0 <= i < |t.payments| ==> t.payments[i].payeeId != u.id
    ensures u.name in t.AddPayment(description, amount, u.id).SettlePayment(u.name, amount).BalancesWithUsers()
    ensures t.AddPayment(description, amount, u.id).SettlePayment(u.name, amount).Balance(u.name) == 0.0
  {
    SettleCancelsPayment(t, u, description, amount);
    NoPaymentsZeroBalance(t, u);
  }

  /** A split writes exactly this: the friend is created when no user has that name, and one
      unsettled payment of `amount`, with the description, is recorded against the friend. */
  lemma SplitWrites(t: Tables, name: string, description: string, amount: real)
    requires t.WellFormed()
    ensures
      var after := t.SplitWith(name, description, amount);
      var friend := User(t.AddUser(name).1, name);
      && FindByName(after.users, name) == Some(friend)
      && (FindByName(t.users, name).Some? ==>
            after.users == t.users && FindByName(t.users, name) == Some(friend))
      && (FindByName(t.users, name).None? ==>
            after.users == t.users + [User(t.nextUserId, name)])
      && after.payments == t.payments + [Row(t.nextPaymentId, description, amount, friend.id, false)]
      && after.WellFormed()
  {
    var added := t.AddUser(name);
    AddUserWellFormed(t, name);
    assert User(added.1, name) in added.0.users;
    AddPaymentWellFormed(added.0, description, amount, added.1);
  }

  /** A split appends the new payment, carrying the friend's name, to `get_all_payments`, and
      raises the friend's balance by `amount`, creating the entry when they had none. */
  lemma SplitViews(t: Tables, name: string, description: string, amount: real)
    requires t.WellFormed()
    ensures
      var after := t.SplitWith(name, description, amount);
      && after.AllPayments() ==
           t.AllPayments() + [Payment(t.nextPaymentId, description, amount, t.AddUser(name).1, false, name)]
      && after.BalancesWithUsers() == t.BalancesWithUsers()[name := t.Balance(name) + amount]
  {
    var added := t.AddUser(name);
    AddUserWellFormed(t, name);
    AddUserKeepsViews(t, name);
    assert User(added.1, name) in added.0.users;
    LookupsFindUser(added.0, User(added.1, name));
    PaymentAfterAddUser(t, added.0, name, added.1, description, amount, t.SplitWith(name, description, amount));
  }

  /** The views after `add_payment` on tables whose views are those of `t`. */
  lemma PaymentAfterAddUser(t: Tables, t1: Tables, name: string, id: int, description: string, amount: real,
                            after: Tables)
    requires FindById(t1.users, id) == Some(User(id, name))
    requires t1.AllPayments() == t.AllPayments() && t1.BalancesWithUsers() == t.BalancesWithUsers()
    requires t1.nextPaymentId == t.nextPaymentId
    requires after == t1.AddPayment(description, amount, id)
    ensures after.AllPayments() ==
              t.AllPayments() + [Payment(t.nextPaymentId, description, amount, id, false, name)]
    ensures after.BalancesWithUsers() == t.BalancesWithUsers()[name := t.Balance(name) + amount]
  {
    AddPaymentJoin(t1, description, amount, User(id, name));
    AddPaymentBalances(t1, description, amount, User(id, name));
  }

  // ---------------------------------------------------------------------------------------
  // The open database

  class Database {
    var users: seq<User>
    var payments: seq<Row>
    var nextUserId: int
    var nextPaymentId: int

    /** The tables as they stand. */
    function Snapshot(): Tables
      reads this
    {
      Tables(users, payments, nextUserId, nextPaymentId)
    }

    ghost predicate Valid()
      reads this
    {
      Snapshot().WellFormed()
    }

    /** `Database::new`: the database file is opened holding `existing` (both tables empty
        and both counters at 1 when the file is new). */
    constructor Open(existing: Tables)
      ensures Snapshot() == existing
    {
      users := existing.users;
      payments := existing.payments;
      nextUserId := existing.nextUserId;
      nextPaymentId := existing.nextPaymentId;
    }

    /** `add_user`: returns the id of the user called `name`, inserting them first if there
        is none. */
    method AddUser(name: string) returns (id: int)
      modifies this
      ensures (Snapshot(), id) == old(Snapshot()).AddUser(name)
      ensures old(Valid()) ==> Valid()
    {
      var existing := FindByName(users, name);
      if existing.Some? {
        id := existing.value.id;
        return;
      }
      users := users + [User(nextUserId, name)];
      id := nextUserId;
      nextUserId := nextUserId + 1;
      if old(Valid()) {
        AddUserWellFormed(old(Snapshot()), name);
      }
    }

    /** `add_payment`: records an unsettled payment of `amount` against an existing payee. */
    method AddPayment(description: string, amount: real, payeeId: int)
      requires FindById(users, payeeId).Some?
      modifies this
      ensures Snapshot() == old(Snapshot()).AddPayment(description, amount, payeeId)
      ensures users == old(users)
      ensures payments == old(payments) + [Row(old(nextPaymentId), description, amount, payeeId, false)]
      ensures old(Valid()) ==> Valid()
    {
      payments := payments + [Row(nextPaymentId, description, amount, payeeId, false)];
      nextPaymentId := nextPaymentId + 1;
      if old(Valid()) {
        AddPaymentWellFormed(old(Snapshot()), description, amount, payeeId);
      }
    }

    /** `settle_payment`: records the negated amount against the user called `userName`, or
        does nothing when there is no such user. */
    method SettlePayment(userName: string, amount: real)
      modifies this
      ensures Snapshot() == old(Snapshot()).SettlePayment(userName, amount)
      ensures users == old(users)
      ensures FindByName(users, userName).None? ==> payments == old(payments)
      ensures FindByName(users, userName).Some? ==>
                payments == old(payments) + [Row(old(nextPaymentId), SettlementPrefix + userName, -amount,
                                                 FindByName(users, userName).value.id, false)]
      ensures old(Valid()) ==> Valid()
    {
      var userId: Option<int> := match FindByName(users, userName)
        case Some(u) => Some(u.id)
        case None => None;
      if userId.Some? {
        payments := payments + [Row(nextPaymentId, SettlementPrefix + userName, -amount, userId.value, false)];
        nextPaymentId := nextPaymentId + 1;
      }
      if old(Valid()) {
        SettlePaymentWellFormed(old(Snapshot()), userName, amount);
      }
    }
  }
}
