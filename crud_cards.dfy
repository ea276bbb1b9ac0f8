/** `src/crud/crud_cards.py`: the card list read from the cards file. The
    file's content is given as the sequence of its records, in file order. */
module CrudCards {
  import opened ProcessData
  import opened Strings

  /** One record of the cards file. */
  datatype Card = Card(id: string, name: string)

  /** `get_cards_name`: one name per card, in file order. */
  function CardsNames(cards: seq<Card>): (names: seq<string>)
    ensures |names| == |cards|
    ensures forall i :: 0 <= i < |cards| ==> names[i] == cards[i].name
  {
    seq(|cards|, i requires 0 <= i < |cards| => cards[i].name)
  }

  /** `get_cards_ids`: one id per card, in file order. */
  function CardsIds(cards: seq<Card>): (ids: seq<string>)
    ensures |ids| == |cards|
    ensures forall i :: 0 <= i < |cards| ==> ids[i] == cards[i].id
  {
    seq(|cards|, i requires 0 <= i < |cards| => cards[i].id)
  }

  /** The id of the first card carrying `name`; a name no card carries is
      a ValueError. */
  function IdByName(cards: seq<Card>, name: string): (r: Result<string>)
    ensures r.Ok? <==> name in CardsNames(cards)
    ensures r.Ok? ==> exists i :: 0 <= i < |cards| && cards[i].name == name && r.value == cards[i].id &&
                        forall j :: 0 <= j < i ==> cards[j].name != name
    ensures r.Err? ==> r.error == ValueError(CardNotFound(name))
  {
    match IndexOf(CardsNames(cards), name)
    case None => Err(ValueError(CardNotFound(name)))
    case Some(i) => Ok(cards[i].id)
  }

  /** `get_card_id_by_name`: a search from the first card that returns as
      soon as a card carries `name`. */
  method CardIdByName(cards: seq<Card>, name: string) returns (r: Result<string>)
    ensures r == IdByName(cards, name)
  {
    var i := 0;
    while i < |cards|
      invariant 0 <= i <= |cards|
      invariant forall j :: 0 <= j < i ==> cards[j].name != name
    {
      if cards[i].name == name {
        assert CardsNames(cards)[i] == name;
        return Ok(cards[i].id);
      }
      i := i + 1;
    }
    assert forall j :: 0 <= j < |cards| ==> CardsNames(cards)[j] != name;
    return Err(ValueError(CardNotFound(name)));
  }

  /** The id found for a name is the id of the first card carrying it: for
      a card no earlier card shares a name with, its own id. */
  lemma IdByNameOfCard(cards: seq<Card>, i: nat)
    requires i < |cards| && forall j :: 0 <= j < i ==> cards[j].name != cards[i].name
    ensures IdByName(cards, cards[i].name) == Ok(cards[i].id)
  {
    var r := IdByName(cards, cards[i].name);
    assert CardsNames(cards)[i] == cards[i].name;
    var k :| 0 <= k < |cards| && cards[k].name == cards[i].name && r.value == cards[k].id &&
             forall j :: 0 <= j < k ==> cards[j].name != cards[i].name;
    assert k == i;
  }

  /** Names and ids line up: the id found for a card's name is the id of
      that card whenever no earlier card has the same name. */
  lemma NamesAndIdsAlign(cards: seq<Card>, i: nat)
    requires i < |cards|
    ensures |CardsNames(cards)| == |CardsIds(cards)|
    ensures CardsNames(cards)[i] == cards[i].name && CardsIds(cards)[i] == cards[i].id
  {
  }
}
