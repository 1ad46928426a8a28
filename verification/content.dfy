/** The content accessor (`wordpress.*`).  Connectivity and store
    information are critical and relay failures; testimonials and FAQs are
    decorative and degrade a failure to an empty list. */
module Content {
  import opened Outcomes
  import opened Model
  import opened Transport

  /** The degradation policy of the decorative lists: a delivered list is
      kept, a failure becomes the empty list, so the result never fails. */
  function Degrade<T>(response: Outcome<seq<T>>): (r: Outcome<seq<T>>)
    ensures r.Ok?
    ensures response.Ok? ==> r.value == response.value
    ensures response.Err? ==> r.value == []
  {
    match response
    case Ok(data) => Ok(data)
    case Err(_) => Ok([])
  }

  /** `testConnection()`: the diagnostic endpoint's answer, relayed. */
  function TestConnection(wp: ContentClient): (r: Outcome<Json>)
    ensures Relays(wp.test, r)
  {
    wp.test
  }

  /** `getStoreInfo()`: the store snapshot, relayed. */
  function GetStoreInfo(wp: ContentClient): (r: Outcome<StoreInfo>)
    ensures Relays(wp.storeInfo, r)
  {
    wp.storeInfo
  }

  /** `getTestimonials()`: the testimonial records, or none on failure. */
  function GetTestimonials(wp: ContentClient): (r: Outcome<seq<Json>>)
    ensures r.Ok?
    ensures wp.testimonials.Ok? ==> r == wp.testimonials
    ensures wp.testimonials.Err? ==> r == Ok([])
  {
    Degrade(wp.testimonials)
  }

  /** `getFAQs()`: the FAQ records, or none on failure. */
  function GetFAQs(wp: ContentClient): (r: Outcome<seq<Json>>)
    ensures r.Ok?
    ensures wp.faqs.Ok? ==> r == wp.faqs
    ensures wp.faqs.Err? ==> r == Ok([])
  {
    Degrade(wp.faqs)
  }

  /** The asymmetry between the two kinds of content: a failure of the
      connection test or of the store snapshot reaches the caller, while a
      failure of a decorative list is reported as success. */
  lemma CriticalFailsDecorativeDegrades(wp: ContentClient)
    ensures wp.test.Err? ==> TestConnection(wp) == Err(wp.test.error)
    ensures wp.storeInfo.Err? ==> GetStoreInfo(wp) == Err(wp.storeInfo.error)
    ensures wp.testimonials.Err? ==> GetTestimonials(wp) == Ok([])
    ensures wp.faqs.Err? ==> GetFAQs(wp) == Ok([])
  {
  }

  /** A degraded failure cannot be told apart from a service that has no
      testimonials or FAQs: both answers give the caller the same result. */
  lemma DegradedFailureLooksEmpty(wp: ContentClient, e: Failure)
    ensures GetTestimonials(wp.(testimonials := Err(e))) == GetTestimonials(wp.(testimonials := Ok([])))
    ensures GetFAQs(wp.(faqs := Err(e))) == GetFAQs(wp.(faqs := Ok([])))
  {
  }
}
