/** `src/core/crud_cards.py`: the fixed list of card names. */
module CoreCrudCards {
  import opened ProcessData
  import Strings

  const NotImplementedTag := "[NI] "

  /** `CARDS`: the two cards not yet implemented carry the "[NI] " tag. */
  const Cards: seq<string> := [
    NotImplementedTag + "Allouer un budget carbone",
    NotImplementedTag + "Réglementation et mesures économiques",
    "Sobriété",
    "Compensation des émissions",
    "Nouveaux vecteurs énergétiques",
    "Report modal",
    "Efficacité des opérations",
    "Technologie"
  ]

  /** A name carrying the "[NI] " tag of cards not yet implemented. */
  predicate NotImplemented(name: string) {
    |name| >= 5 && name[..5] == NotImplementedTag
  }

  /** `get_cards`. */
  function GetCards(): (cards: seq<string>)
    ensures |cards| == 8
    ensures forall i :: 0 <= i < |cards| ==> (NotImplemented(cards[i]) <==> i < 2)
  {
    forall i | 0 <= i < |Cards| ensures NotImplemented(Cards[i]) <==> i < 2 {
      if i == 0 {
        assert Cards[0][..5] == NotImplementedTag;
      } else if i == 1 {
        assert Cards[1][..5] == NotImplementedTag;
      } else {
        assert Cards[i][0] != '[';
      }
    }
    Cards
  }

  /** `get_card_id`: the position of the first card named `name`; an
      absent name is a ValueError. */
  function GetCardId(name: string): (r: Result<nat>)
    ensures r.Ok? <==> name in Cards
    ensures r.Ok? ==> r.value < |Cards| && Cards[r.value] == name
    ensures r.Ok? ==> forall j :: 0 <= j < r.value ==> Cards[j] != name
    ensures r.Err? ==> r.error == ValueError(CardNotFound(name))
  {
    match Strings.IndexOf(Cards, name)
    case Some(i) => Ok(i)
    case None => Err(ValueError(CardNotFound(name)))
  }

  /** No two positions hold the same name. */
  lemma CardsDistinct()
    ensures forall i, j :: 0 <= i < j < |Cards| ==> Cards[i] != Cards[j]
  {
    assert Cards[0][0] == '[';
    assert Cards[1][0] == '[';
    assert Cards[2][0] == 'S';
    assert Cards[3][0] == 'C';
    assert Cards[4][0] == 'N';
    assert Cards[5][0] == 'R';
    assert Cards[6][0] == 'E';
    assert Cards[7][0] == 'T';
    assert Cards[0][5] == 'A' && Cards[1][5] == 'R';
    forall i, j | 0 <= i < j < |Cards|
      ensures Cards[i] != Cards[j]
    {
      if i == 0 && j == 1 {
        assert Cards[i][5] != Cards[j][5];
      } else {
        assert Cards[i][0] != Cards[j][0];
      }
    }
  }

  /** Each card's own name gives back its position: the names are distinct. */
  lemma CardIdsRoundTrip(i: nat)
    requires i < |Cards|
    ensures GetCardId(Cards[i]) == Ok(i)
  {
    CardsDistinct();
    var r := GetCardId(Cards[i]);
    assert r.Ok? && Cards[r.value] == Cards[i];
  }
}
