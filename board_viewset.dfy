/**
 * The shared Kanban board's API (apps/pages/viewsets.py): creating a card
 * at the bottom of its column, and moving a card to a position in a column
 * by shifting the cards at or below that position down one place.
 */
module BoardViewSet {
  import opened Wrappers
  import opened Text
  import opened Http
  import opened BoardModels

  /** Cards are keyed by a fresh identifier, standing in for the uuid4 primary key. */
  type CardId = nat

  /** No two cards of column `s` share an order. */
  predicate DistinctIn(cards: map<CardId, Card>, s: Status) {
    forall i, j :: i in cards && j in cards && i != j && cards[i].status == s && cards[j].status == s ==>
      cards[i].order != cards[j].order
  }

  /** The bulk update of `move`: every card of column `s` at order `k` or beyond goes one place down. */
  function Shifted(cards: map<CardId, Card>, s: Status, k: int): (r: map<CardId, Card>)
    ensures r.Keys == cards.Keys
  {
    map i | i in cards :: if cards[i].status == s && cards[i].order >= k then cards[i].(order := cards[i].order + 1) else cards[i]
  }

  /** The board after a successful `move` of card `id` to column `s`, order `k`. */
  function Placed(cards: map<CardId, Card>, id: CardId, s: Status, k: int): (r: map<CardId, Card>)
    requires id in cards
    ensures r.Keys == cards.Keys
  {
    Shifted(cards, s, k)[id := cards[id].(status := s, order := k)]
  }

  /** The shift keeps the orders of every column distinct. */
  lemma ShiftedKeepsDistinct(cards: map<CardId, Card>, s: Status, k: int, t: Status)
    requires DistinctIn(cards, t)
    ensures DistinctIn(Shifted(cards, s, k), t)
  {
    var m := Shifted(cards, s, k);
    forall i, j | i in m && j in m && i != j && m[i].status == t && m[j].status == t
      ensures m[i].order != m[j].order
    {
      assert cards[i].status == t && cards[j].status == t;
    }
  }

  /**
   * If a column had distinct orders it keeps them, and in the target column
   * the moved card is the only one at `k`.
   */
  lemma PlacedKeepsOrdersDistinct(cards: map<CardId, Card>, id: CardId, s: Status, k: int, t: Status)
    requires id in cards && DistinctIn(cards, t)
    ensures DistinctIn(Placed(cards, id, s, k), t)
    ensures forall j :: j in cards && j != id && Placed(cards, id, s, k)[j].status == s ==>
              Placed(cards, id, s, k)[j].order != k
  {
    var sh := Shifted(cards, s, k);
    ShiftedKeepsDistinct(cards, s, k, t);
    var m := Placed(cards, id, s, k);
    assert m == sh[id := cards[id].(status := s, order := k)];
    forall i, j | i in m && j in m && i != j && m[i].status == t && m[j].status == t
      ensures m[i].order != m[j].order
    {
      if i != id && j != id {
        assert m[i] == sh[i] && m[j] == sh[j];
      }
    }
  }

  /**
   * Cards that stay in one column keep their relative order: the shift adds
   * one to a whole upper segment of the column.
   */
  lemma PlacedKeepsRelativeOrder(cards: map<CardId, Card>, id: CardId, s: Status, k: int, i: CardId, j: CardId)
    requires id in cards && i in cards && j in cards && i != id && j != id
    requires cards[i].status == cards[j].status
    ensures Placed(cards, id, s, k)[i].status == Placed(cards, id, s, k)[j].status
    ensures cards[i].order < cards[j].order <==> Placed(cards, id, s, k)[i].order < Placed(cards, id, s, k)[j].order
  {
  }

  /**
   * The `order` value of a move request as JSON delivers it: a number or a
   * boolean, carried as the integer `int()` makes of it (a float cut
   * toward zero, `true` as 1); a string, which `int()` parses; or anything
   * else (null, a list, an object), which `int()` refuses.
   */
  datatype OrderField = Number(value: int) | Text(text: string) | NotNumeric

  /** `int(v)` for a request's `order` value: `None` where it raises. */
  function OrderOf(v: OrderField): Option<int> {
    match v
    case Number(n) => Some(n)
    case Text(t) => ParseInt(t)
    case NotNumeric => None
  }

  class Board {
    var cards: map<CardId, Card>
    var nextId: CardId

    ghost predicate Valid()
      reads this
    {
      forall id :: id in cards ==> id < nextId && Storable(cards[id])
    }

    constructor ()
      ensures Valid() && cards == map[]
    {
      cards := map[];
      nextId := 0;
    }

    /**
     * `aggregate(m=Max("order"))["m"] or 0` over column `s`: the largest
     * order there, or 0 for an empty column (a largest order of 0 also gives 0).
     */
    method ColumnMaxOrder(s: Status) returns (m: int)
      ensures 0 <= m
      ensures forall id :: id in cards && cards[id].status == s ==> cards[id].order <= m
      ensures m == 0 || exists id :: id in cards && cards[id].status == s && cards[id].order == m
    {
      m := 0;
      var rest := cards.Keys;
      while rest != {}
        invariant rest <= cards.Keys && 0 <= m
        invariant forall id :: id in cards && id !in rest && cards[id].status == s ==> cards[id].order <= m
        invariant m == 0 || exists id :: id in cards && id !in rest && cards[id].status == s && cards[id].order == m
        decreases |rest|
      {
        var id :| id in rest;
        if cards[id].status == s && cards[id].order > m {
          m := cards[id].order;
        }
        rest := rest - {id};
      }
    }

    /**
     * `perform_create`: the card goes into the requested column, or the
     * backlog when the request names none (`requested` is `None` for a
     * missing status), one place below the column's last card, and records
     * the requester as its creator. An empty or unknown status never gets
     * here: the serializer's choice field refuses it with a 400 first, so
     * the `or` fallback only ever replaces a missing status.
     */
    method PerformCreate(title: string, desc: string, requested: Option<Status>, user: UserId, now: int)
      returns (id: CardId)
      requires Valid() && |title| <= TitleMaxLength
      modifies this
      ensures Valid()
      ensures id !in old(cards) && cards.Keys == old(cards.Keys) + {id}
      ensures forall j :: j in old(cards) ==> cards[j] == old(cards[j])
      ensures var c := cards[id];
              c.title == title && c.desc == desc && c.status == requested.GetOr(DefaultStatus)
              && c.createdBy == Some(user) && c.createdAt == now && c.updatedAt == now
      ensures forall j :: j in old(cards) && old(cards[j]).status == cards[id].status ==>
                old(cards[j]).order < cards[id].order
      ensures cards[id].order == 1
              || exists j :: j in old(cards) && old(cards[j]).status == cards[id].status
                             && old(cards[j]).order + 1 == cards[id].order
      ensures forall t :: old(DistinctIn(cards, t)) ==> DistinctIn(cards, t)
    {
      var status := requested.GetOr(DefaultStatus);
      var last := ColumnMaxOrder(status);
      id := nextId;
      cards := cards[id := Card(title, desc, status, last + 1, Some(user), now, now)];
      nextId := nextId + 1;
    }

    /**
     * `move` as intended: `status` and `order` default to the card's own;
     * an `order` that `int()` refuses is a server error. The shift is saved
     * before the card, so a negative order leaves the shift in place and
     * fails on the non-negative constraint when the card is saved.
     */
    method Move(id: CardId, status: Option<Status>, order: Option<OrderField>) returns (code: HttpStatus)
      requires Valid()
      modifies this
      ensures Valid() && nextId == old(nextId)
      ensures id !in old(cards) ==> code == NotFound && cards == old(cards)
      ensures id in old(cards) && order.Some? && OrderOf(order.value).None? ==>
                code == InternalError && cards == old(cards)
      ensures id in old(cards) && (order.None? || OrderOf(order.value).Some?) ==>
                var s := status.GetOr(old(cards[id]).status);
                var k := if order.Some? then OrderOf(order.value).value else old(cards[id]).order;
                if k < 0 then code == InternalError && cards == Shifted(old(cards), s, k)
                else code == Ok && cards == Placed(old(cards), id, s, k)
                     && cards[id] == old(cards[id]).(status := s, order := k)
                     && (forall j :: j in cards && j != id ==>
                           cards[j] == if old(cards[j]).status == s && old(cards[j]).order >= k
                                       then old(cards[j]).(order := old(cards[j]).order + 1)
                                       else old(cards[j]))
    {
      if id !in cards {
        return NotFound;
      }
      var task := cards[id];
      var s := status.GetOr(task.status);
      var k := task.order;
      if order.Some? {
        var parsed := OrderOf(order.value);
        if parsed.None? {
          return InternalError;
        }
        k := parsed.value;
      }
      cards := Shifted(cards, s, k);
      if k < 0 {
        return InternalError;
      }
      cards := cards[id := task.(status := s, order := k)];
      code := Ok;
    }

    /**
     * `move` as written: the shift names `models.F` in a module that never
     * imports `models`, so after looking the card up and reading the order
     * every request fails with a server error before anything is written.
     */
    method MoveAsWritten(id: CardId, status: Option<Status>, order: Option<OrderField>) returns (code: HttpStatus)
      requires Valid()
      modifies this
      ensures cards == old(cards) && nextId == old(nextId)
      ensures code == (if id in cards then InternalError else NotFound)
    {
      if id !in cards {
        return NotFound;
      }
      code := InternalError;
    }
  }
}
