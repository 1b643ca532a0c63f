/**
 * The card handlers of src/controllers/cards.ts. They never call `next`:
 * every path writes its own response. CardStore's map stands for the
 * `cards` collection; `likes` is a MongoDB array kept as a set.
 */
module Cards {
  import opened Wrappers
  import opened Errors
  import opened Store
  import opened Express

  const MSG_INTERNAL: string := "Internal Server Error"
  const MSG_SERVER_ERROR: string := "Внутренняя ошибка сервера"
  const MSG_BAD_DATA: string := "Неверные данные"
  const MSG_NO_DATA: string := "Данные отсутствуют"
  const MSG_NOT_OWNER: string := "Вы не можете этого сделать, вы не владелец"
  const MSG_NO_CARD: string := "Карточки не существует"

  /** A card document. */
  datatype Card = Card(name: Option<string>, link: Option<string>, owner: Id, likes: seq<Id>)

  /** The bodies the card handlers send. */
  datatype Body =
    | CardDoc(id: Id, card: Card)        // the card itself
    | CardDocs(cards: map<Id, Card>)     // the array of all cards
    | CardData(id: Id, card: Card)       // { data: card }
    | Message(text: string)              // { message }

  // ----- likes as a set -----

  predicate NoDuplicates(s: seq<Id>) {
    forall i, j | 0 <= i < j < |s| :: s[i] != s[j]
  }

  /** `$addToSet`: append `x` unless it is already there. */
  function AddToSet(s: seq<Id>, x: Id): (r: seq<Id>)
    ensures x in r
    ensures forall y :: y in r <==> y in s || y == x
  {
    if x in s then s else s + [x]
  }

  /** `$pull`: remove every occurrence of `x`, keeping the rest in order. */
  function Pull(s: seq<Id>, x: Id): (r: seq<Id>)
    ensures |r| <= |s|
  {
    if s == [] then []
    else if s[0] == x then Pull(s[1..], x)
    else [s[0]] + Pull(s[1..], x)
  }

  /** `$pull` leaves no occurrence of `x` and every other liker, each as often as before. */
  lemma {:induction false} PullRemovesOnlyX(s: seq<Id>, x: Id)
    ensures x !in Pull(s, x)
    ensures forall y | y != x :: multiset(Pull(s, x))[y] == multiset(s)[y]
  {
    if s != [] {
      PullRemovesOnlyX(s[1..], x);
      assert s == [s[0]] + s[1..];
      assert multiset(s) == multiset([s[0]]) + multiset(s[1..]);
    }
  }

  /** `$pull` keeps a duplicate-free `likes` duplicate-free. */
  lemma {:induction false} PullKeepsNoDuplicates(s: seq<Id>, x: Id)
    requires NoDuplicates(s)
    ensures NoDuplicates(Pull(s, x))
  {
    if s != [] {
      assert NoDuplicates(s[1..]) by {
        forall i, j | 0 <= i < j < |s[1..]| ensures s[1..][i] != s[1..][j] {
          assert s[1..][i] == s[i + 1] && s[1..][j] == s[j + 1];
        }
      }
      PullKeepsNoDuplicates(s[1..], x);
      if s[0] != x {
        PullRemovesOnlyX(s[1..], s[0]);
        var t := Pull(s[1..], x);
        PullSubset(s[1..], x);
        assert s[0] !in s[1..];
        assert s[0] !in t;
        var r := [s[0]] + t;
        forall i, j | 0 <= i < j < |r| ensures r[i] != r[j] {
          if i == 0 {
            assert r[j] == t[j - 1];
            assert r[j] in t;
          } else {
            assert r[i] == t[i - 1] && r[j] == t[j - 1];
          }
        }
      }
    }
  }

  /** Everything left by `$pull` was there before. */
  lemma {:induction false} PullSubset(s: seq<Id>, x: Id)
    ensures forall y | y in Pull(s, x) :: y in s
  {
    if s != [] {
      PullSubset(s[1..], x);
    }
  }

  /** Pulling something absent changes nothing. */
  lemma {:induction false} PullAbsent(s: seq<Id>, x: Id)
    requires x !in s
    ensures Pull(s, x) == s
  {
    if s != [] {
      assert s[1..] + [] == s[1..];
      PullAbsent(s[1..], x);
      assert s == [s[0]] + s[1..];
    }
  }

  /** `$pull` distributes over concatenation. */
  lemma {:induction false} PullAppend(s: seq<Id>, t: seq<Id>, x: Id)
    ensures Pull(s + t, x) == Pull(s, x) + Pull(t, x)
  {
    if s == [] {
      assert s + t == t;
    } else {
      assert (s + t)[1..] == s[1..] + t;
      PullAppend(s[1..], t, x);
    }
  }

  /** `$addToSet` keeps a duplicate-free `likes` duplicate-free, and a second like changes nothing. */
  lemma AddToSetKeepsNoDuplicates(s: seq<Id>, x: Id)
    requires NoDuplicates(s)
    ensures NoDuplicates(AddToSet(s, x))
    ensures AddToSet(AddToSet(s, x), x) == AddToSet(s, x)
  {
  }

  /** Dislike after like equals a plain dislike; when `x` had not liked the card, it restores `likes` exactly. */
  lemma {:induction false} PullUndoesAddToSet(s: seq<Id>, x: Id)
    ensures Pull(AddToSet(s, x), x) == Pull(s, x)
    ensures Pull(AddToSet(s, x), x) == s <==> x !in s
  {
    PullRemovesOnlyX(AddToSet(s, x), x);
    if x !in s {
      PullAppend(s, [x], x);
      assert Pull([x], x) == Pull([], x) == [];
      assert Pull(s, x) + [] == Pull(s, x);
      PullAbsent(s, x);
    }
  }

  // ----- the `catch` blocks -----

  /** deleteCardById, likeCard, dislikeCard: a cast failure is bad data, everything else a server error. */
  function CastCatch(t: Thrown): (r: Response<Body>)
    ensures r.status == VALIDATION_ERROR <==> IsCastError(t)
    ensures r.status != VALIDATION_ERROR ==> r == Response(SERVER_ERROR, Message(MSG_SERVER_ERROR), None)
    ensures r.status == VALIDATION_ERROR ==> r.body == Message(MSG_BAD_DATA)
    ensures r.cookie == None
  {
    if IsCastError(t) then Response(VALIDATION_ERROR, Message(MSG_BAD_DATA), None)
    else Response(SERVER_ERROR, Message(MSG_SERVER_ERROR), None)
  }

  /** createCard: a Mongoose validation error is bad data, everything else a server error. */
  function CreateCatch(t: Thrown): (r: Response<Body>)
    ensures r.status == VALIDATION_ERROR <==> IsValidationError(t)
    ensures r.status != VALIDATION_ERROR ==> r == Response(SERVER_ERROR, Message(MSG_SERVER_ERROR), None)
    ensures r.status == VALIDATION_ERROR ==> r.body == Message(MSG_BAD_DATA)
    ensures r.cookie == None
  {
    if IsValidationError(t) then Response(VALIDATION_ERROR, Message(MSG_BAD_DATA), None)
    else Response(SERVER_ERROR, Message(MSG_SERVER_ERROR), None)
  }

  /** `getCards`: all cards with REQUEST_SUCCESS; any failure is a server error with the English message. */
  function GetCards(cards: map<Id, Card>, fault: Option<Thrown>): (r: Response<Body>)
    ensures r.status == REQUEST_SUCCESS <==> fault.None?
    ensures fault.None? ==> r == Response(REQUEST_SUCCESS, CardDocs(cards), None)
    ensures fault.Some? ==> r == Response(SERVER_ERROR, Message(MSG_INTERNAL), None)
  {
    match fault
    case None => Response(REQUEST_SUCCESS, CardDocs(cards), None)
    case Some(_) => Response(SERVER_ERROR, Message(MSG_INTERNAL), None)
  }

  /** The store kept by the card handlers. */
  class CardStore {
    var cards: map<Id, Card>

    /** No card lists a liker twice. */
    ghost predicate Valid()
      reads this
    {
      forall id | id in cards :: NoDuplicates(cards[id].likes)
    }

    constructor ()
      ensures Valid() && cards == map[]
    {
      cards := map[];
    }

    /**
     * `createCard`: a card owned by the current user, with `name` and `link`
     * from the body and no likes. `newId` is the ObjectId of the new document;
     * the card schema's own validation arrives as `fault`.
     */
    method CreateCard(current: Id, name: Option<string>, link: Option<string>, newId: Id, fault: Option<Thrown>)
      returns (r: Response<Body>)
      requires Valid()
      modifies this`cards
      ensures Valid()
      ensures fault.Some? ==> r == CreateCatch(fault.value) && cards == old(cards)
      ensures fault.None? && newId in old(cards) ==> r == CreateCatch(INDEX_COLLISION) && cards == old(cards)
      ensures fault.None? && newId !in old(cards) ==>
        && cards == old(cards)[newId := Card(name, link, current, [])]
        && r == Response(CREATED_SUCCESS, CardDoc(newId, cards[newId]), None)
    {
      if fault.Some? {
        return CreateCatch(fault.value);
      }
      if newId in cards {
        return CreateCatch(INDEX_COLLISION);
      }
      var newCard := Card(name, link, current, []);
      cards := cards[newId := newCard];
      r := Response(CREATED_SUCCESS, CardDoc(newId, newCard), None);
    }

    /**
     * `deleteCardById`: the card is removed first and its owner checked after,
     * so a non-owner's request is refused with the card already gone.
     */
    method DeleteCardById(current: Id, cardId: Id, fault: Option<Thrown>) returns (r: Response<Body>)
      requires Valid()
      modifies this`cards
      ensures Valid()
      ensures fault.Some? ==> r == CastCatch(fault.value) && cards == old(cards)
      ensures fault.None? && cardId !in old(cards) ==>
        r == Response(DATA_NOT_FOUND, Message(MSG_NO_DATA), None) && cards == old(cards)
      ensures fault.None? && cardId in old(cards) ==> cards == old(cards) - {cardId}
      ensures fault.None? && cardId in old(cards) && old(cards)[cardId].owner == current ==>
        r == Response(REQUEST_SUCCESS, CardDoc(cardId, old(cards)[cardId]), None)
      ensures fault.None? && cardId in old(cards) && old(cards)[cardId].owner != current ==>
        r == Response(FORBIDDEN_ACTION, Message(MSG_NOT_OWNER), None)
    {
      if fault.Some? {
        return CastCatch(fault.value);
      }
      if cardId !in cards {
        return Response(DATA_NOT_FOUND, Message(MSG_NO_DATA), None);
      }
      var cardToDelete := cards[cardId];
      cards := cards - {cardId};
      if cardToDelete.owner == current {
        return Response(REQUEST_SUCCESS, CardDoc(cardId, cardToDelete), None);
      }
      r := Response(FORBIDDEN_ACTION, Message(MSG_NOT_OWNER), None);
    }

    /** `likeCard`: add the current user to the card's `likes` as to a set; nothing else changes. */
    method LikeCard(current: Id, cardId: Id, fault: Option<Thrown>) returns (r: Response<Body>)
      requires Valid()
      modifies this`cards
      ensures Valid()
      ensures fault.Some? ==> r == CastCatch(fault.value) && cards == old(cards)
      ensures fault.None? && cardId !in old(cards) ==>
        r == Response(DATA_NOT_FOUND, Message(MSG_NO_CARD), None) && cards == old(cards)
      ensures fault.None? && cardId in old(cards) ==>
        && cards == old(cards)[cardId := old(cards)[cardId].(likes := AddToSet(old(cards)[cardId].likes, current))]
        && r == Response(REQUEST_SUCCESS, CardData(cardId, cards[cardId]), None)
    {
      if fault.Some? {
        return CastCatch(fault.value);
      }
      if cardId !in cards {
        return Response(DATA_NOT_FOUND, Message(MSG_NO_CARD), None);
      }
      AddToSetKeepsNoDuplicates(cards[cardId].likes, current);
      var card := cards[cardId].(likes := AddToSet(cards[cardId].likes, current));
      cards := cards[cardId := card];
      r := Response(REQUEST_SUCCESS, CardData(cardId, card), None);
    }

    /** `dislikeCard`: remove every occurrence of the current user from `likes`; nothing else changes. */
    method DislikeCard(current: Id, cardId: Id, fault: Option<Thrown>) returns (r: Response<Body>)
      requires Valid()
      modifies this`cards
      ensures Valid()
      ensures fault.Some? ==> r == CastCatch(fault.value) && cards == old(cards)
      ensures fault.None? && cardId !in old(cards) ==>
        r == Response(DATA_NOT_FOUND, Message(MSG_NO_CARD), None) && cards == old(cards)
      ensures fault.None? && cardId in old(cards) ==>
        && cards == old(cards)[cardId := old(cards)[cardId].(likes := Pull(old(cards)[cardId].likes, current))]
        && r == Response(REQUEST_SUCCESS, CardData(cardId, cards[cardId]), None)
    {
      if fault.Some? {
        return CastCatch(fault.value);
      }
      if cardId !in cards {
        return Response(DATA_NOT_FOUND, Message(MSG_NO_CARD), None);
      }
      PullKeepsNoDuplicates(cards[cardId].likes, current);
      var card := cards[cardId].(likes := Pull(cards[cardId].likes, current));
      cards := cards[cardId := card];
      r := Response(REQUEST_SUCCESS, CardData(cardId, card), None);
    }
  }
}
