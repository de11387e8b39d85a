/** The splat channels of a terrain and the six texture dependencies a terrain asset holds. */
module Splat {

  /** `SplatTexture.Channel`: the five paint-texture channels blended by the splat map. */
  datatype Channel = Base | R | G | B | A

  /** A dependency slot of a terrain asset: the splat-weight map, or the paint texture of a channel. */
  datatype Slot = Splatmap | Paint(channel: Channel)

  /** The order in which `applyDependencies` visits the slots. */
  const SlotOrder: seq<Slot> := [Splatmap, Paint(Base), Paint(R), Paint(G), Paint(B), Paint(A)]

  lemma EverySlotIsVisited()
    ensures forall s :: s in SlotOrder
  {
    forall s ensures s in SlotOrder {
      VisitedAt(s);
    }
  }

  lemma VisitedAt(s: Slot)
    ensures s in SlotOrder
  {
    match s
    case Splatmap => assert SlotOrder[0] == s;
    case Paint(Base) => assert SlotOrder[1] == s;
    case Paint(R) => assert SlotOrder[2] == s;
    case Paint(G) => assert SlotOrder[3] == s;
    case Paint(B) => assert SlotOrder[4] == s;
    case Paint(A) => assert SlotOrder[5] == s;
  }
}
