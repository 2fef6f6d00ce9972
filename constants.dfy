/** The static tables: the events offered, in menu order, and the dress
    code for each event. */
module Constants {
  import opened Types

  /** The events offered by the selector, in menu order. */
  const WeddingEvents: seq<EventType> := [Nikkah, Baraat, Valima]

  /** The dress-code table. Being a `match` over every constructor, it is
      total: every event has a dress code. */
  function DressCode(e: EventType): (d: DressCombination)
    ensures d.bride != "" && d.groom != ""
  {
    match e
    case Nikkah => DressCombination("Gharara or Sharara", "Kurta Pajama with Waistcoat")
    case Baraat => DressCombination("Lehenga, Gharara or Sharara", "Sherwani with Turban")
    case Valima => DressCombination("Gown or Lehenga", "3-Piece Suit")
  }

  /** The table's three entries. */
  lemma DressCodeTable()
    ensures DressCode(Nikkah) == DressCombination("Gharara or Sharara", "Kurta Pajama with Waistcoat")
    ensures DressCode(Baraat) == DressCombination("Lehenga, Gharara or Sharara", "Sherwani with Turban")
    ensures DressCode(Valima) == DressCombination("Gown or Lehenga", "3-Piece Suit")
  {
  }

  /** The menu lists every event exactly once. */
  lemma WeddingEventsEnumerateAll()
    ensures |WeddingEvents| == 3
    ensures forall e: EventType :: e in WeddingEvents
    ensures forall i, j :: 0 <= i < j < |WeddingEvents| ==> WeddingEvents[i] != WeddingEvents[j]
  {
    forall e: EventType ensures e in WeddingEvents {
      match e
      case Nikkah => assert WeddingEvents[0] == e;
      case Baraat => assert WeddingEvents[1] == e;
      case Valima => assert WeddingEvents[2] == e;
    }
  }

  /** No two events share a dress code. */
  lemma DressCodesDistinct(e1: EventType, e2: EventType)
    ensures e1 != e2 ==> DressCode(e1) != DressCode(e2)
  {
  }
}
