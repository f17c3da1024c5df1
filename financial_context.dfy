/** `FinancialProvider`: the in-memory list of analysis records, newest
    first, mirrored to `localStorage` under the key `financialData`. */
module FinancialContext {
  import opened Wrappers
  import opened Js
  import opened LocalStorage
  import opened Json

  const FinancialDataKey := "financialData"

  /** The context's own user slot (`{ username }`), exposed through `setUser`. */
  datatype User = User(username: string)

  /** What the load effect did with the stored snapshot. */
  datatype LoadOutcome =
    | Skipped                         // nothing stored, or the empty string
    | Loaded(records: seq<Record>)    // the list was replaced by the parse
    | Threw                           // `JSON.parse` threw; the list is untouched

  /** The load effect's decision for a `getItem` result. */
  function LoadOutcomeOf(stored: Option<string>): (o: LoadOutcome)
    ensures o.Skipped? <==> !TruthyString(stored)
    ensures o.Loaded? ==> TruthyString(stored) && Parse(stored.value) == Some(o.records)
    ensures o.Threw? <==> TruthyString(stored) && Parse(stored.value).None?
  {
    if !TruthyString(stored) then Skipped
    else match Parse(stored.value)
      case Some(rs) => Loaded(rs)
      case None => Threw
  }

  /** Whatever else the store holds, the snapshot written for `rs` loads back
      as exactly `rs`: the same records in the same order. */
  lemma ReloadReproduces(items: map<string, string>, rs: seq<Record>)
    ensures LoadOutcomeOf(Lookup(items[FinancialDataKey := Stringify(rs)], FinancialDataKey)) == Loaded(rs)
  {
    RoundTrip(rs);
  }

  class FinancialProvider {
    const store: Store
    var user: Option<User>
    var financialData: seq<Record>

    /** Mounting: no user and no records before the load effect runs. */
    constructor (store: Store)
      ensures this.store == store
      ensures user == None && financialData == []
    {
      this.store := store;
      user := None;
      financialData := [];
    }

    /** The mount effect: rehydrates the list from the stored snapshot when
        one is present and non-empty; reads the store and writes nothing to it. */
    method LoadEffect() returns (outcome: LoadOutcome)
      modifies this
      ensures outcome == LoadOutcomeOf(Lookup(store.items, FinancialDataKey))
      ensures financialData == (if outcome.Loaded? then outcome.records else old(financialData))
      ensures user == old(user)
    {
      var storedData := store.GetItem(FinancialDataKey);
      if TruthyString(storedData) {
        var parsed := Parse(storedData.value);
        if parsed.Some? {
          financialData := parsed.value;
          outcome := Loaded(parsed.value);
        } else {
          outcome := Threw;
        }
      } else {
        outcome := Skipped;
      }
    }

    /** Prepends one record and rewrites the stored snapshot from the new
        list; no other key of the store and not the user changes. */
    method AddFinancialData(newData: Record)
      modifies this, store
      ensures financialData == [newData] + old(financialData)
      ensures store.items == old(store.items)[FinancialDataKey := Stringify(financialData)]
      ensures user == old(user)
    {
      var updatedData := [newData] + financialData;
      financialData := updatedData;
      store.SetItem(FinancialDataKey, Stringify(updatedData));
    }

    method SetUser(u: Option<User>)
      modifies this
      ensures user == u && financialData == old(financialData)
    {
      user := u;
    }
  }

  /** A page reload after an add: a fresh provider mounted on the same store
      rehydrates exactly the list the first one holds, new record first. */
  method AddThenRemount(p: FinancialProvider, r: Record) returns (q: FinancialProvider)
    modifies p, p.store
    ensures fresh(q) && q.store == p.store
    ensures p.financialData == [r] + old(p.financialData)
    ensures q.financialData == p.financialData
  {
    p.AddFinancialData(r);
    q := new FinancialProvider(p.store);
    ReloadReproduces(old(p.store.items), p.financialData);
    var outcome := q.LoadEffect();
  }
}
