/** The process-level job of the server: the monthly timer that opens a new
    stats period. */
module Server {
  import opened Domain
  import opened Database

  /** The cron callback on the first of every month: one new stats period with
      zero counts, stamped now, after all existing ones. */
  method NewPeriod(db: Store, now: int)
    requires db.Valid()
    modifies db
    ensures db.Valid()
    ensures db.stats == old(db.stats) + [Stats(0, 0, 0, Some(now))]
    ensures db.users == old(db.users) && db.payments == old(db.payments) && db.gatewayCalls == old(db.gatewayCalls)
  {
    db.stats := db.stats + [Stats(0, 0, 0, Some(now))];
  }
}
