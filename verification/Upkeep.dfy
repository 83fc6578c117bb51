/**
 What every operation on the tables keeps: leases and locks name issued tokens, generations are
 positive, linked rows belong together, and the books balance.
 */
module Upkeep {
  import opened Billing
  import opened Schema
  import opened Evolution
  import opened History
  import opened Fencing
  import opened Accounting

  ghost predicate TablesOk(db: Db) {
    TokensOk(db) && Linked(db) && GenerationsOk(db) && LedgerInv(db)
  }

  lemma EmptyIsOk(now: Instant)
    ensures TablesOk(EmptyDb(now))
  {
  }

  lemma EvolutionKeepsTables(a: Db, b: Db)
    requires TablesOk(a) && Evolves(a, b) && LedgerInv(b)
    ensures TablesOk(b)
  {
    hide TokensOk, Linked, GenerationsOk, LedgerInv, Evolves;
    EvolutionKeepsTokens(a, b);
    EvolutionKeepsLinks(a, b);
    EvolutionKeepsGenerations(a, b);
  }

  /** An operation that moves no money. */
  lemma UnpaidKeepsTables(a: Db, b: Db)
    requires TablesOk(a) && Evolves(a, b) && SameMoneyRows(a, b)
    ensures TablesOk(b)
  {
    hide TokensOk, Linked, GenerationsOk, LedgerInv, Evolves;
    ElsewhereKeeps(a, b);
    EvolutionKeepsTables(a, b);
  }

  lemma QueueKeepsTables(a: Db, b: Db)
    requires TablesOk(a) && QueueOnly(a, b)
    ensures TablesOk(b)
  {
    hide TablesOk, Evolves;
    UnpaidKeepsTables(a, b);
  }

  lemma LifecycleKeepsTables(a: Db, b: Db)
    requires TablesOk(a) && EvolvesQuietly(a, b) && SameMoneyRows(a, b)
    ensures TablesOk(b)
  {
    hide TablesOk, Evolves;
    UnpaidKeepsTables(a, b);
  }

  /** An operation that is known to keep the books. */
  lemma PaidKeepsTables(a: Db, b: Db)
    requires TablesOk(a) && EvolvesQuietly(a, b) && LedgerInv(b)
    ensures TablesOk(b)
  {
    hide TablesOk, Evolves, LedgerInv;
    EvolutionKeepsTables(a, b);
  }

  lemma BooksKeepTables(a: Db, b: Db)
    requires TablesOk(a) && BooksOnly(a, b) && LedgerInv(b)
    ensures TablesOk(b)
  {
    hide TablesOk, Evolves, LedgerInv;
    EvolutionKeepsTables(a, b);
  }

  lemma BalancedBooks(db: Db)
    requires TablesOk(db)
    ensures LedgerInv(db)
  {
  }
}
