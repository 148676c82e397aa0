/**
 * The Kanban card record (apps/pages/models.py): its four statuses and
 * their stored strings, its defaults and limits, and the default listing
 * order of the board.
 */
module BoardModels {
  import opened Wrappers
  import opened Text

  type UserId = nat

  datatype Status = Backlog | Todo | InProgress | Done

  /** A new card without a status lands in the backlog. */
  const DefaultStatus: Status := Backlog

  const TitleMaxLength: nat := 120

  /** The string stored in the `status` column for each choice. */
  function StatusValue(s: Status): (v: string)
    ensures 4 <= |v| <= 10
  {
    match s
    case Backlog => "backlog"
    case Todo => "todo"
    case InProgress => "inprogress"
    case Done => "done"
  }

  /** The choice a stored string names, if it names one. */
  function StatusFromValue(v: string): (r: Option<Status>)
    ensures r.Some? ==> StatusValue(r.value) == v
  {
    if v == "backlog" then Some(Backlog)
    else if v == "todo" then Some(Todo)
    else if v == "inprogress" then Some(InProgress)
    else if v == "done" then Some(Done)
    else None
  }

  /** Every status is stored as a string that names it again. */
  lemma StatusValueRoundTrip(s: Status)
    ensures StatusFromValue(StatusValue(s)) == Some(s)
  {
  }

  /** A card of the board; the primary key is kept by the board, not here. */
  datatype Card = Card(
    title: string,
    desc: string,
    status: Status,
    order: int,
    createdBy: Option<UserId>,
    createdAt: int,
    updatedAt: int)

  /** What the table accepts: a non-negative order (a CHECK constraint) and a short title. */
  predicate Storable(c: Card) {
    0 <= c.order && |c.title| <= TitleMaxLength
  }

  /** Position of a status in the listing: the order of the stored strings. */
  function StatusRank(s: Status): (r: nat)
    ensures r < 4
  {
    match s
    case Backlog => 0
    case Done => 1
    case InProgress => 2
    case Todo => 3
  }

  /** `Meta.ordering = ["status", "order", "created_at"]`: lexicographic on the stored values. */
  predicate ListedBefore(a: Card, b: Card)
    ensures ListedBefore(a, b) ==> StatusRank(a.status) <= StatusRank(b.status)
    ensures a.status == b.status ==>
              (ListedBefore(a, b) <==> a.order < b.order || (a.order == b.order && a.createdAt < b.createdAt))
  {
    StatusStringsOrder(a.status, b.status);
    LexLess(StatusValue(a.status), StatusValue(b.status))
    || (a.status == b.status
        && (a.order < b.order || (a.order == b.order && a.createdAt < b.createdAt)))
  }

  /**
   * Comparing the stored strings puts the columns in the order
   * backlog, done, inprogress, todo.
   */
  lemma StatusStringsOrder(a: Status, b: Status)
    ensures LexLess(StatusValue(a), StatusValue(b)) <==> StatusRank(a) < StatusRank(b)
  {
    if a == b {
      LexLessIrreflexive(StatusValue(a));
    } else {
      assert StatusValue(a)[0] != StatusValue(b)[0] || {a, b} == {Todo, Done} || {a, b} == {Backlog, InProgress};
    }
  }

  /** The listing order by ranks, orders and creation times. */
  lemma ListedBeforeByRank(a: Card, b: Card)
    ensures ListedBefore(a, b) <==>
              StatusRank(a.status) < StatusRank(b.status)
              || (a.status == b.status
                  && (a.order < b.order || (a.order == b.order && a.createdAt < b.createdAt)))
  {
    StatusStringsOrder(a.status, b.status);
  }

  /** The listing order is a strict order: irreflexive and transitive. */
  lemma ListedBeforeStrict(a: Card, b: Card, c: Card)
    ensures !ListedBefore(a, a)
    ensures ListedBefore(a, b) && ListedBefore(b, c) ==> ListedBefore(a, c)
  {
    ListedBeforeByRank(a, a);
    ListedBeforeByRank(a, b);
    ListedBeforeByRank(b, c);
    ListedBeforeByRank(a, c);
    assert StatusRank(a.status) == StatusRank(b.status) ==> a.status == b.status;
    assert StatusRank(b.status) == StatusRank(c.status) ==> b.status == c.status;
  }

  /** Two cards that differ in status, order or creation time are always listed one way round. */
  lemma ListedBeforeTotal(a: Card, b: Card)
    requires (a.status, a.order, a.createdAt) != (b.status, b.order, b.createdAt)
    ensures ListedBefore(a, b) || ListedBefore(b, a)
  {
    ListedBeforeByRank(a, b);
    ListedBeforeByRank(b, a);
    assert StatusRank(a.status) == StatusRank(b.status) ==> a.status == b.status;
  }
}
