/**
 * The services section of the clinic site: a fixed list of fifteen services
 * of which only the first three are shown until the visitor asks for more,
 * with a button that expands and collapses the list.
 */
module Services {

  // ---------------------------------------------------------------------
  // Data
  // ---------------------------------------------------------------------

  /** One service. Its description and image URL are display data and are not modelled. */
  datatype Service = Service(id: nat, title: string)

  /** The services in display order; each `id` is the service's position. */
  function AllServices(): (s: seq<Service>)
    ensures |s| == 15
    ensures forall i :: 0 <= i < |s| ==> s[i].id == i
    ensures s[13].title == s[14].title
  {
    [ Service(0, "Dental Implants"),
      Service(1, "Dentures & Bridges"),
      Service(2, "Extractions"),
      Service(3, "Fillings and Sealants"),
      Service(4, "Mouth Guards"),
      Service(5, "Online Dentist Booking"),
      Service(6, "Root Canals"),
      Service(7, "Teeth Cleaning"),
      Service(8, "Teeth Reshaping"),
      Service(9, "Veneers & Crowns"),
      Service(10, "X-ray"),
      Service(11, "Periodontal Treatment"),
      Service(12, "Orthodontic Treatment"),
      Service(13, "Pedodontic Treatment"),
      Service(14, "Pedodontic Treatment") ]
  }

  /** The ids are unique, although two services share a title. */
  lemma ServiceIdsUnique()
    ensures forall i, j :: 0 <= i < j < |AllServices()| ==> AllServices()[i].id != AllServices()[j].id
  {
  }

  // ---------------------------------------------------------------------
  // One card
  // ---------------------------------------------------------------------

  /** How many services are shown while the list is collapsed. */
  const AlwaysShown := 3

  /** The two opacity/translation classes a card can carry. */
  datatype Opacity = FullyVisible | FadedOut

  /**
   * The opacity class of the card at `index`: the first three cards are
   * always fully visible, a later card is iff the list is expanded.
   */
  function CardOpacity(index: nat, showAll: bool): (o: Opacity)
    ensures o == FullyVisible <==> index < AlwaysShown || showAll
  {
    var shouldAnimate := index >= AlwaysShown;
    if shouldAnimate && showAll then FullyVisible
    else if shouldAnimate then FadedOut
    else FullyVisible
  }

  /**
   * The CSS transition delay of the card at `index`, in milliseconds. A card
   * waits exactly when the list is expanded and it comes after the fourth
   * one; the first three never wait, and collapsed no card does.
   */
  function TransitionDelayMs(index: nat, showAll: bool): (ms: nat)
    ensures ms > 0 <==> showAll && index > AlwaysShown
    ensures index < AlwaysShown || !showAll ==> ms == 0
  {
    if index >= AlwaysShown && showAll then (index - AlwaysShown) * 150 else 0
  }

  /**
   * When expanded, the cards past the first three appear one after another:
   * each starts 150 ms after the previous one, the first of them at once.
   */
  lemma {:induction false} DelaysStaggered(i: nat, j: nat)
    requires AlwaysShown <= i < j
    ensures TransitionDelayMs(AlwaysShown, true) == 0
    ensures TransitionDelayMs(i, true) < TransitionDelayMs(j, true)
    ensures TransitionDelayMs(j, true) - TransitionDelayMs(i, true) == (j - i) * 150
    ensures TransitionDelayMs(i, false) == TransitionDelayMs(j, false) == 0
  {
  }

  /** A rendered card: the service, its position, its opacity class and its delay. */
  datatype Card = Card(service: Service, index: nat, opacity: Opacity, delayMs: nat)

  /**
   * The card drawn for the service at `index`: it carries that service and
   * its position, and it is fully visible exactly when it is rendered at all.
   */
  function CardAt(services: seq<Service>, index: nat, showAll: bool): (c: Card)
    requires index < |services|
    ensures c.service == services[index] && c.index == index
    ensures c.opacity == FullyVisible <==> IsRendered(index, showAll)
  {
    Card(services[index], index, CardOpacity(index, showAll), TransitionDelayMs(index, showAll))
  }

  // ---------------------------------------------------------------------
  // The list
  // ---------------------------------------------------------------------

  /** Whether the service at `index` is drawn at all: the first three always, the rest only when expanded. */
  predicate IsRendered(index: nat, showAll: bool)
    ensures IsRendered(index, showAll) <==> index < AlwaysShown || showAll
  {
    !(index >= AlwaysShown && !showAll)
  }

  function Min(a: int, b: int): int
  {
    if a < b then a else b
  }

  /**
   * The cards drawn for the services from position `from` on: the component maps
   * every service to a card or to nothing, and only the cards are drawn.
   */
  function RenderFrom(services: seq<Service>, showAll: bool, from: nat): (cards: seq<Card>)
    requires from <= |services|
    ensures showAll ==> |cards| == |services| - from
    ensures !showAll ==> |cards| == if from < AlwaysShown then Min(AlwaysShown, |services|) - from else 0
    ensures forall k :: 0 <= k < |cards| ==> from + k < |services| && cards[k] == CardAt(services, from + k, showAll)
    decreases |services| - from
  {
    if from == |services| then []
    else
      var rest := RenderFrom(services, showAll, from + 1);
      if IsRendered(from, showAll) then [CardAt(services, from, showAll)] + rest else rest
  }

  /**
   * The cards of the whole list: all of them when expanded, at most the first
   * three when collapsed, card `k` always being the one for position `k`.
   */
  function Rendered(services: seq<Service>, showAll: bool): (cards: seq<Card>)
    ensures |cards| == if showAll then |services| else Min(AlwaysShown, |services|)
    ensures forall k :: 0 <= k < |cards| ==> cards[k] == CardAt(services, k, showAll)
  {
    RenderFrom(services, showAll, 0)
  }

  /** Collapsed: exactly the first three services, in list order. */
  lemma RenderedCollapsed(services: seq<Service>)
    requires |services| >= AlwaysShown
    ensures |Rendered(services, false)| == AlwaysShown
    ensures forall k :: 0 <= k < AlwaysShown ==>
      Rendered(services, false)[k].service == services[k] && Rendered(services, false)[k].index == k
  {
  }

  /** Expanded: every service, in list order. */
  lemma RenderedExpanded(services: seq<Service>)
    ensures |Rendered(services, true)| == |services|
    ensures forall k :: 0 <= k < |services| ==>
      Rendered(services, true)[k].service == services[k] && Rendered(services, true)[k].index == k
  {
  }

  /**
   * Every card that is drawn is fully visible: the faded-out class is never
   * drawn, because a later card is dropped before its class is chosen.
   */
  lemma RenderedAlwaysVisible(services: seq<Service>, showAll: bool)
    ensures forall k :: 0 <= k < |Rendered(services, showAll)| ==>
      Rendered(services, showAll)[k].opacity == FullyVisible
  {
  }

  // ---------------------------------------------------------------------
  // The button
  // ---------------------------------------------------------------------

  /** The button's text. */
  datatype ButtonLabel = ShowLess | ShowMore(more: int)

  /** The button reads "Show Less" exactly when expanded, otherwise it counts the services past the first three. */
  function Label(services: seq<Service>, showAll: bool): (l: ButtonLabel)
    ensures l.ShowLess? <==> showAll
    ensures !showAll ==> l.more == |services| - AlwaysShown
  {
    if showAll then ShowLess else ShowMore(|services| - AlwaysShown)
  }

  /** The count on the collapsed button is the number of services the collapsed list hides. */
  lemma LabelCountsHidden(services: seq<Service>)
    requires |services| >= AlwaysShown
    ensures Label(services, false) == ShowMore(|services| - |Rendered(services, false)|)
    ensures Label(services, true) == ShowLess
  {
  }

  /** For the clinic's list the collapsed button offers twelve more services. */
  lemma ClinicLabel()
    ensures Label(AllServices(), false) == ShowMore(12)
  {
  }

  /** The outcome of one click: the new `showAll` and whether the page scrolls back to the section. */
  datatype ClickEffect = ClickEffect(showAll: bool, scrollToSection: bool)

  /**
   * A click flips `showAll`; the handler reads the value from before the
   * click, so it scrolls back to the section exactly when collapsing.
   */
  function OnClick(showAll: bool): (e: ClickEffect)
    ensures e.showAll != showAll
    ensures e.scrollToSection <==> (showAll && !e.showAll)
  {
    ClickEffect(!showAll, showAll)
  }

  /** Two clicks restore the state, and exactly one of them scrolls. */
  lemma TwoClicksRestore(showAll: bool)
    ensures OnClick(OnClick(showAll).showAll).showAll == showAll
    ensures OnClick(showAll).scrollToSection != OnClick(OnClick(showAll).showAll).scrollToSection
  {
  }

  /** The component's state. */
  class ServicesSection {
    const services: seq<Service> := AllServices()
    var showAll: bool

    /** Mounting: the clinic's list, collapsed. */
    constructor ()
      ensures services == AllServices() && !showAll
    {
      showAll := false;
    }

    /** The button's click handler; `scroll` says whether it scrolls back to the section. */
    method Click() returns (scroll: bool)
      modifies this
      ensures showAll == !old(showAll)
      ensures scroll == old(showAll)
    {
      var effect := OnClick(showAll);
      showAll := effect.showAll;
      scroll := effect.scrollToSection;
    }

    /** The cards on screen: all fifteen when expanded, the first three when collapsed. */
    function Cards(): (cards: seq<Card>)
      reads this
      ensures |cards| == if showAll then |services| else AlwaysShown
      ensures forall k :: 0 <= k < |cards| ==> cards[k] == CardAt(services, k, showAll)
    {
      Rendered(services, showAll)
    }

    /** The button's text: "Show Less" when expanded, otherwise the number of cards not on screen, twelve. */
    function CurrentLabel(): (l: ButtonLabel)
      reads this
      ensures l.ShowLess? <==> showAll
      ensures !showAll ==> l == ShowMore(|services| - |Cards()|) && l.more == 12
    {
      Label(services, showAll)
    }
  }
}
