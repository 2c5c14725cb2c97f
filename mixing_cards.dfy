/** The saved mixing cards of the browser app (`src/app/hooks/useMixingCards.ts`):
    a list, newest first, kept in `localStorage` under `mixing-cards` and replaced
    whole by each save, update and delete. `crypto.randomUUID()` and the ISO time
    stamp are parameters. */
module MixingCards {
  import opened Wrappers
  import opened JsonValue
  import opened Lists

  const StorageKey := "mixing-cards"

  /** `MixingCardBase` and, in `rest`, the fields of the card's variant (`type`,
      `series`, `formula`, `match`, `distance`, …), which the hook never reads. */
  datatype Card = Card(id: string, createdAt: string, name: string, searchHex: string, notes: string, rest: Json)

  /** `Omit<MixingCard, 'id' | 'createdAt'>` */
  datatype NewCard = NewCard(name: string, searchHex: string, notes: string, rest: Json)

  /** `Partial<Pick<MixingCard, 'name' | 'notes'>>`: `None` is a field left out. */
  datatype Fields = Fields(name: Option<string>, notes: Option<string>)

  /** The `mixing-cards` entry of `localStorage`: what `persistCards` wrote, or a
      text `JSON.parse` rejects. */
  datatype Stored = Saved(cards: seq<Card>) | Corrupt(text: string)

  /** `loadCards()`: a missing entry and a corrupt one both give `[]`. */
  function LoadCards(stored: Option<Stored>): (r: seq<Card>)
    ensures stored.None? || stored.value.Corrupt? ==> r == []
    ensures stored.Some? && stored.value.Saved? ==> r == stored.value.cards
  {
    match stored
    case Some(Saved(cs)) => cs
    case _ => []
  }

  /** `{ ...card, id, createdAt }` */
  function WithId(card: NewCard, id: string, createdAt: string): Card {
    Card(id, createdAt, card.name, card.searchHex, card.notes, card.rest)
  }

  /** `{ ...c, ...fields }` */
  function Merge(c: Card, fields: Fields): Card {
    c.(name := fields.name.GetOr(c.name), notes := fields.notes.GetOr(c.notes))
  }

  /** `prev.map(c => c.id === id ? { ...c, ...fields } : c)` */
  function Updated(cards: seq<Card>, id: string, fields: Fields): seq<Card> {
    Map(cards, (c: Card) => if c.id == id then Merge(c, fields) else c)
  }

  function OtherId(id: string): Card -> bool {
    (c: Card) => c.id != id
  }

  /** `prev.filter(c => c.id !== id)` */
  function Deleted(cards: seq<Card>, id: string): seq<Card> {
    Filter(cards, OtherId(id))
  }

  /** Only the name and the notes of the cards with the id change: the length,
      the order, every id and every other card stay as they were. */
  lemma UpdatedFacts(cards: seq<Card>, id: string, fields: Fields)
    ensures |Updated(cards, id, fields)| == |cards|
    ensures forall i | 0 <= i < |cards| && cards[i].id != id :: Updated(cards, id, fields)[i] == cards[i]
    ensures forall i | 0 <= i < |cards| && cards[i].id == id ::
      var u := Updated(cards, id, fields)[i];
      u.id == id && u.createdAt == cards[i].createdAt && u.searchHex == cards[i].searchHex
      && u.rest == cards[i].rest
      && u.name == (if fields.name.Some? then fields.name.value else cards[i].name)
      && u.notes == (if fields.notes.Some? then fields.notes.value else cards[i].notes)
  {
  }

  /** Applying the same update twice is applying it once. */
  lemma UpdatedIdempotent(cards: seq<Card>, id: string, fields: Fields)
    ensures Updated(Updated(cards, id, fields), id, fields) == Updated(cards, id, fields)
  {
    var u := Updated(cards, id, fields);
    var uu := Updated(u, id, fields);
    assert forall i | 0 <= i < |cards| :: uu[i] == u[i];
  }

  /** No card with the id is left; every other card is kept, in order. */
  lemma {:induction false} DeletedFacts(cards: seq<Card>, id: string)
    ensures forall i | 0 <= i < |Deleted(cards, id)| :: Deleted(cards, id)[i].id != id
    ensures forall i | 0 <= i < |cards| && cards[i].id != id :: cards[i] in Deleted(cards, id)
    ensures Subsequence(Deleted(cards, id), cards)
  {
    FilterSubsequence(cards, OtherId(id));
  }

  /** Deleting an id no card has leaves the list as it is. */
  lemma {:induction false} DeleteAbsent(cards: seq<Card>, id: string)
    requires forall i | 0 <= i < |cards| :: cards[i].id != id
    ensures Deleted(cards, id) == cards
  {
    FilterAll(cards, OtherId(id));
  }

  /** Deleting a card just saved under a fresh id gives back the list before the save. */
  lemma {:induction false} DeleteUndoesSave(cards: seq<Card>, card: NewCard, id: string, createdAt: string)
    requires forall i | 0 <= i < |cards| :: cards[i].id != id
    ensures Deleted([WithId(card, id, createdAt)] + cards, id) == cards
  {
    var s := [WithId(card, id, createdAt)] + cards;
    assert s[1..] == cards;
    DeleteAbsent(cards, id);
  }

  /** The hook's state: the `cards` state and the storage entry it persists to. */
  class CardList {
    var cards: seq<Card>
    var stored: Option<Stored>

    /** What storage holds reloads as the list on screen. */
    predicate Valid()
      reads this
    {
      LoadCards(stored) == cards
    }

    /** `useState(loadCards)` on mount, with the storage entry as it is. */
    constructor (entry: Option<Stored>)
      ensures cards == LoadCards(entry) && stored == entry
      ensures Valid()
    {
      cards := LoadCards(entry);
      stored := entry;
    }

    /** `persistCards(next)`; `cards := next` */
    method Commit(next: seq<Card>)
      modifies this
      ensures cards == next && stored == Some(Saved(next))
      ensures Valid()
    {
      stored := Some(Saved(next));
      cards := next;
    }

    /** `saveCard(card)`; `id` and `createdAt` stand for `crypto.randomUUID()` and
        `new Date().toISOString()`. */
    method SaveCard(card: NewCard, id: string, createdAt: string)
      modifies this
      ensures cards == [WithId(card, id, createdAt)] + old(cards)
      ensures stored == Some(Saved(cards)) && Valid()
    {
      Commit([WithId(card, id, createdAt)] + cards);
    }

    /** `updateCard(id, fields)` */
    method UpdateCard(id: string, fields: Fields)
      modifies this
      ensures cards == Updated(old(cards), id, fields)
      ensures stored == Some(Saved(cards)) && Valid()
    {
      Commit(Updated(cards, id, fields));
    }

    /** `deleteCard(id)` */
    method DeleteCard(id: string)
      modifies this
      ensures cards == Deleted(old(cards), id)
      ensures stored == Some(Saved(cards)) && Valid()
    {
      Commit(Deleted(cards, id));
    }

    /** The `storage` event handler: another tab changed `key`; when that is the
        `mixing-cards` entry, `entry` is what it now holds and the list reloads. */
    method OnStorage(key: string, entry: Option<Stored>)
      requires Valid()
      modifies this
      ensures key == StorageKey ==> cards == LoadCards(entry) && stored == entry
      ensures key != StorageKey ==> cards == old(cards) && stored == old(stored)
      ensures Valid()
    {
      if key == StorageKey {
        stored := entry;
        cards := LoadCards(entry);
      }
    }
  }
}
