/** The service detail page (src/pages/ServiceDetailPage.tsx): the lookup of the service in
    the page's own two-entry catalog with its not-found view, the three tabs of which exactly
    one panel shows, the FAQ accordion and the duration label. Images and testimonials are
    left out. */
module ServiceDetail {
  import opened Common

  /** The page's mock services: the first two of the catalog, with longer descriptions. */
  const DetailServices: seq<Service> := [
    Service("1", "Pipe Repair & Installation", Plumbing,
      "Expert repair and installation of all types of pipes including PVC, copper, and galvanized steel. Our professional plumbers can handle leaks, blockages, and new installations with precision and care.",
      85.0, 2),
    Service("2", "Electrical Panel Upgrade", Electrical,
      "Upgrade your electrical panel to safely handle your home's power needs with modern circuit breakers. Our licensed electricians ensure that your home's electrical system meets all safety codes and can handle your current and future power needs.",
      250.0, 4)
  ]

  datatype Faq = Faq(question: string, answer: string)

  /** The four questions of the FAQ tab, in order. */
  const Faqs: seq<Faq> := [
    Faq("How quickly can you schedule a service?",
        "We typically can schedule services within 24-48 hours of your request, depending on availability. For emergencies, we offer same-day service when possible."),
    Faq("Are your service providers insured?",
        "Yes, all our service providers are fully insured and undergo thorough background checks. We ensure that they meet our high standards for quality and professionalism."),
    Faq("What happens if I need to cancel my appointment?",
        "You can cancel your appointment up to 24 hours before the scheduled time without any cancellation fee. For cancellations made less than 24 hours in advance, a small fee may apply."),
    Faq("Do you offer any guarantees on your work?",
        "Yes, we offer a 100% satisfaction guarantee on all our services. If you're not completely satisfied, we'll make it right or provide a refund for the service.")
  ]

  /** The page knows ids '1' and '2' only; any other id shows "Service Not Found". */
  lemma DetailLookup(id: string)
    ensures FindService(DetailServices, id).Some? <==> id == "1" || id == "2"
    ensures FindService(DetailServices, "2") == Some(DetailServices[1])
  {
  }

  /** Both services last more than an hour, so both labels read "hours". */
  lemma DetailDurationLabels()
    ensures forall k :: 0 <= k < |DetailServices| ==> DurationUnit(DetailServices[k].duration) == "hours"
  {
  }

  datatype Tab = Overview | Reviews | FaqTab

  /** The panels rendered: one `activeTab === …` guard per panel. */
  function Panels(active: Tab): (panels: seq<Tab>)
    ensures |panels| == 1 && panels[0] == active
  {
    (if active == Overview then [Overview] else []) +
    (if active == Reviews then [Reviews] else []) +
    (if active == FaqTab then [FaqTab] else [])
  }

  /** `toggleFaq(index)`: the expanded question collapses; any other one becomes the
      expanded one. */
  function Toggled(expanded: Option<int>, index: int): (e: Option<int>)
    ensures e == None <==> expanded == Some(index)
    ensures e != None ==> e == Some(index)
  {
    if expanded == Some(index) then None else Some(index)
  }

  /** Toggling the same question twice from the collapsed state, or from that question
      expanded, returns to where it started; from another question expanded it leaves none
      expanded. */
  lemma ToggleTwice(expanded: Option<int>, index: int)
    ensures expanded == None || expanded == Some(index) ==>
              Toggled(Toggled(expanded, index), index) == expanded
    ensures expanded.Some? && expanded != Some(index) ==>
              Toggled(Toggled(expanded, index), index) == None
  {
  }

  /** The answers shown from question k on: a question's answer is rendered when it is the
      expanded one. */
  function AnswersFrom(k: nat, expanded: Option<int>): (r: seq<string>)
    requires k <= |Faqs|
    ensures expanded.Some? && k <= expanded.value < |Faqs| ==> r == [Faqs[expanded.value].answer]
    ensures !(expanded.Some? && k <= expanded.value < |Faqs|) ==> r == []
    decreases |Faqs| - k
  {
    if k == |Faqs| then []
    else (if expanded == Some(k) then [Faqs[k].answer] else []) + AnswersFrom(k + 1, expanded)
  }

  /** What the page renders. */
  datatype DetailView = ServiceNotFound | Detail(name: string, durationUnit: string, panels: seq<Tab>, answers: seq<string>)

  class ServiceDetailPage {
    /** `services.find((s) => s.id === id)`. */
    const service: Option<Service>
    var activeTab: Tab
    var expandedFaq: Option<int>

    /** The page opens on the overview tab with every question collapsed. */
    constructor(id: string)
      ensures service == FindService(DetailServices, id)
      ensures activeTab == Overview && expandedFaq == None
    {
      service := FindService(DetailServices, id);
      activeTab := Overview;
      expandedFaq := None;
    }

    /** An unknown service shows the not-found view; otherwise exactly the active panel is
        rendered, and on the FAQ tab at most one answer. */
    function View(): (v: DetailView)
      reads this
      ensures v == ServiceNotFound <==> service.None?
      ensures v.Detail? ==> v.panels == [activeTab] && |v.answers| <= 1
      ensures v.Detail? ==> (v.durationUnit == "hours" <==> service.value.duration > 1)
      ensures v.Detail? && activeTab != FaqTab ==> v.answers == []
      ensures v.Detail? && activeTab == FaqTab && expandedFaq.Some? && 0 <= expandedFaq.value < |Faqs| ==>
                v.answers == [Faqs[expandedFaq.value].answer]
    {
      match service
      case None => ServiceNotFound
      case Some(s) =>
        Detail(s.name, DurationUnit(s.duration), Panels(activeTab),
               if activeTab == FaqTab then AnswersFrom(0, expandedFaq) else [])
    }

    /** A tab button. */
    method SelectTab(t: Tab)
      modifies this
      ensures activeTab == t && expandedFaq == old(expandedFaq)
    {
      activeTab := t;
    }

    /** A question's button. */
    method ToggleFaq(index: int)
      modifies this
      ensures expandedFaq == Toggled(old(expandedFaq), index)
      ensures old(expandedFaq) == Some(index) ==> expandedFaq == None
      ensures old(expandedFaq) != Some(index) ==> expandedFaq == Some(index)
      ensures activeTab == old(activeTab)
    {
      if expandedFaq == Some(index) {
        expandedFaq := None;
      } else {
        expandedFaq := Some(index);
      }
    }
  }
}
