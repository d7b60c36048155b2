/** A record of what has happened, newest entry first. */
module Logs {
  datatype Log<E> = Begin | Then(before: Log<E>, entry: E)

  ghost predicate Has<E>(log: Log<E>, entry: E) {
    log.Then? && (log.entry == entry || Has(log.before, entry))
  }

  /** `earlier` is what `log` was at some moment, or is now. */
  ghost predicate StageOf<E>(earlier: Log<E>, log: Log<E>) {
    earlier == log || (log.Then? && StageOf(earlier, log.before))
  }
}
