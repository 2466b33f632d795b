/** Vocabulary shared by the store models. */
module Domain {

  datatype Option<+T> = None | Some(value: T)

  /** The internal life cycle of a row of `video_tasks`. */
  datatype Status =
    | QueuedOpen | QueuedLocked
    | Dispatching | Running | Reconciling | Cancelling
    | Succeeded | Failed | Cancelled

  predicate IsQueued(s: Status) {
    s == QueuedOpen || s == QueuedLocked
  }

  /** Statuses an administrator may delete: nothing more will be executed. */
  predicate IsTerminal(s: Status) {
    s == Succeeded || s == Failed || s == Cancelled
  }

  /** Statuses counted as occupying an upstream. */
  predicate IsActive(s: Status) {
    s == Dispatching || s == Running || s == Reconciling || s == Cancelling
  }

  function Min(a: int, b: int): (m: int)
    ensures m <= a && m <= b && (m == a || m == b)
  {
    if a < b then a else b
  }

  /** Removing elements from a finite set never makes it larger. */
  lemma {:induction false} SubsetSize<T>(a: set<T>, b: set<T>)
    requires a <= b
    ensures |a| <= |b|
    decreases a
  {
    if x :| x in a {
      SubsetSize(a - {x}, b - {x});
    }
  }
}
