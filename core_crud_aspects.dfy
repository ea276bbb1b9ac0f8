/** `src/core/crud_aspects.py`: the fixed list of aspect names. An aspect's
    position in the list is the id the older engine acts upon. */
module CoreCrudAspects {
  import opened ProcessData
  import Strings

  const NotImplementedSuffix := " (Non implementé)"

  /** `ASPECTS`: the first two carry the suffix of aspects not yet implemented. */
  const Aspects: seq<string> := [
    "Allouer un budget carbone" + NotImplementedSuffix,
    "Réglementation et mesures économiques" + NotImplementedSuffix,
    "Sobriété",
    "Compensation des émissions",
    "Nouveaux vecteurs énergétiques",
    "Report modal",
    "Efficacité des opérations",
    "Technologie"
  ]

  /** `get_aspects`. */
  function GetAspects(): (aspects: seq<string>)
    ensures |aspects| == 8 && aspects[2] == "Sobriété" && aspects[7] == "Technologie"
  {
    Aspects
  }

  /** `get_aspect_id`: the position of the first aspect named `name`; an
      absent name is a ValueError. */
  function GetAspectId(name: string): (r: Result<nat>)
    ensures r.Ok? <==> name in Aspects
    ensures r.Ok? ==> r.value < |Aspects| && Aspects[r.value] == name
    ensures r.Ok? ==> forall j :: 0 <= j < r.value ==> Aspects[j] != name
    ensures r.Err? ==> r.error == ValueError(AspectNotFound(name))
  {
    match Strings.IndexOf(Aspects, name)
    case Some(i) => Ok(i)
    case None => Err(ValueError(AspectNotFound(name)))
  }

  /** No two positions hold the same name. */
  lemma AspectsDistinct()
    ensures forall i, j :: 0 <= i < j < |Aspects| ==> Aspects[i] != Aspects[j]
  {
    assert Aspects[0][0] == 'A';
    assert Aspects[1][0] == 'R';
    assert Aspects[2][0] == 'S';
    assert Aspects[3][0] == 'C';
    assert Aspects[4][0] == 'N';
    assert Aspects[5][0] == 'R';
    assert Aspects[6][0] == 'E';
    assert Aspects[7][0] == 'T';
    assert Aspects[1][1] == 'é' && Aspects[5][1] == 'e';
    forall i, j | 0 <= i < j < |Aspects|
      ensures Aspects[i] != Aspects[j]
    {
      if i == 1 && j == 5 {
        assert Aspects[i][1] != Aspects[j][1];
      } else {
        assert Aspects[i][0] != Aspects[j][0];
      }
    }
  }

  /** Each aspect's own name gives back its position: the names are distinct. */
  lemma AspectIdsRoundTrip(i: nat)
    requires i < |Aspects|
    ensures GetAspectId(Aspects[i]) == Ok(i)
  {
    AspectsDistinct();
    var r := GetAspectId(Aspects[i]);
    assert r.Ok? && Aspects[r.value] == Aspects[i];
  }
}
