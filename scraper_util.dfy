/** `get_listings` of `src/scraper_util.rs`, from already-selected page
    elements to party-finder listings. The HTML parsing and CSS selection
    are done by a library; here each element is the record of the strings
    the code pulls out of it, `None` where the lookup finds nothing. */
module ScraperUtil {
  import opened Wrappers
  import opened Seqs
  import opened Strings
  import opened XivUtil

  /** A `.party .slot` element: its `title` and `class` attributes. */
  datatype SlotElement = SlotElement(title: Option<string>, classAttr: Option<string>)

  /** A `.listing` element: the first text node of its first `.duty`,
      `.creator .text` and `.description` descendants, its slot elements in
      document order, and its `data-centre` and `data-pf-category`
      attributes. */
  datatype ListingElement = ListingElement(
    duty: Option<string>,
    creator: Option<string>,
    description: Option<string>,
    slots: seq<SlotElement>,
    dataCentre: Option<string>,
    pfCategory: Option<string>)

  /** The `unwrap` that panics, named by what was missing. */
  datatype ScrapeError =
    | MissingDuty | MissingCreator | MissingDescription
    | MissingSlotTitle | MissingSlotClass
    | MissingDataCentre | MissingPfCategory

  /** The text the code stores in the listing fields it does not scrape: it
      builds placeholder 5s for the time and item level and nothing for the
      flags and the update time. */
  const Unscraped: string := ""
  const Placeholder: string := "5"

  // ---------------------------------------------------------------- slots

  predicate IsJobCode(token: string)
  {
    FromStr(token).Ok?
  }

  /** `map(Job::from_str).filter_map(..)`: the jobs of the recognised
      tokens, unrecognised ones dropped. */
  function DecodeJobs(tokens: seq<string>): (r: seq<Job>)
    ensures |r| <= |tokens|
  {
    if tokens == [] then []
    else
      match FromStr(tokens[0])
      case Ok(j) => [j] + DecodeJobs(tokens[1..])
      case Err(_) => DecodeJobs(tokens[1..])
  }

  /** The jobs a slot's `title` attribute names. */
  function SlotJobs(title: string): (r: seq<Job>)
    ensures |r| <= multiset(title)[' '] + 1
  {
    DecodeJobs(Split(title))
  }

  /** The jobs read off the recognised tokens, in token order. */
  function JobsOf(codes: seq<string>): (r: seq<Job>)
    requires forall k :: 0 <= k < |codes| ==> IsJobCode(codes[k])
    ensures |r| == |codes| && forall k :: 0 <= k < |codes| ==> FromStr(codes[k]) == Ok(r[k])
  {
    if codes == [] then []
    else
      assert IsJobCode(codes[0]);
      [FromStr(codes[0]).value] + JobsOf(codes[1..])
  }

  /** The job list is the image of the subsequence of recognised tokens:
      decoding filters the tokens, keeping their order, then decodes each. */
  lemma {:induction false} DecodeJobsIsFilterThenDecode(tokens: seq<string>)
    ensures forall k :: 0 <= k < |Filter(IsJobCode, tokens)| ==> IsJobCode(Filter(IsJobCode, tokens)[k])
    ensures DecodeJobs(tokens) == JobsOf(Filter(IsJobCode, tokens))
  {
    var f := Filter(IsJobCode, tokens);
    assert forall k :: 0 <= k < |f| ==> f[k] in f;
    if tokens != [] {
      DecodeJobsIsFilterThenDecode(tokens[1..]);
      var g := Filter(IsJobCode, tokens[1..]);
      if IsJobCode(tokens[0]) {
        assert f == [tokens[0]] + g;
        assert f[1..] == g;
      } else {
        assert f == g;
      }
    }
  }

  /** Decoding a concatenation decodes each part: the job order is the
      token order. */
  lemma {:induction false} DecodeJobsAppend(a: seq<string>, b: seq<string>)
    ensures DecodeJobs(a + b) == DecodeJobs(a) + DecodeJobs(b)
  {
    if a == [] {
      assert a + b == b;
    } else {
      assert (a + b)[1..] == a[1..] + b;
      DecodeJobsAppend(a[1..], b);
    }
  }

  /** A token that is not a job code, such as the empty token that two
      adjacent spaces leave, contributes nothing wherever it stands. */
  lemma {:induction false} DecodeJobsSkipsUnknown(a: seq<string>, u: string, b: seq<string>)
    requires !IsJobCode(u)
    ensures !IsJobCode("")
    ensures DecodeJobs(a + [u] + b) == DecodeJobs(a + b)
  {
    DecodeJobsAppend(a + [u], b);
    DecodeJobsAppend(a, [u]);
    DecodeJobsAppend(a, b);
    assert DecodeJobs([u]) == [];
  }

  /** A slot names at most one job per space-separated token, and a title
      that is empty or all spaces names none. */
  lemma {:induction false} SlotJobsBound(title: string)
    ensures |SlotJobs(title)| <= multiset(title)[' '] + 1
    ensures (forall k :: 0 <= k < |title| ==> title[k] == ' ') ==> SlotJobs(title) == []
  {
    if forall k :: 0 <= k < |title| ==> title[k] == ' ' {
      var tokens := Split(title);
      forall k | 0 <= k < |tokens| ensures tokens[k] == "" {
        SplitAllSpaces(title, k);
      }
      EmptyTokensDecodeToNothing(tokens);
    }
  }

  lemma {:induction false} EmptyTokensDecodeToNothing(tokens: seq<string>)
    requires forall k :: 0 <= k < |tokens| ==> tokens[k] == ""
    ensures DecodeJobs(tokens) == []
  {
    if tokens != [] {
      EmptyTokensDecodeToNothing(tokens[1..]);
    }
  }

  /** Every piece of a split of an all-space string is empty. */
  lemma {:induction false} SplitAllSpaces(title: string, k: nat)
    requires forall i :: 0 <= i < |title| ==> title[i] == ' '
    requires k < |Split(title)|
    ensures Split(title)[k] == ""
    decreases |title|
  {
    if ' ' in title && k > 0 {
      var i := IndexOf(title, ' ');
      SplitAllSpaces(title[i + 1..], k - 1);
    }
  }

  /** The per-slot closure: the jobs named by the `title` attribute and
      whether the `class` attribute contains "filled". A missing attribute
      is an `unwrap` failure, `title` being read first. */
  function ParseSlot(e: SlotElement): (r: Result<Slot, ScrapeError>)
    ensures e.title.None? ==> r == Err(MissingSlotTitle)
    ensures e.title.Some? && e.classAttr.None? ==> r == Err(MissingSlotClass)
    ensures r.Ok? <==> e.title.Some? && e.classAttr.Some?
    ensures r.Ok? ==> r.value.availableJobs == SlotJobs(e.title.value)
    ensures r.Ok? ==> |r.value.availableJobs| <= multiset(e.title.value)[' '] + 1
    ensures r.Ok? ==> (r.value.filled <==> exists i :: OccursAt(e.classAttr.value, "filled", i))
  {
    match e.title
    case None => Err(MissingSlotTitle)
    case Some(title) =>
      match e.classAttr
      case None => Err(MissingSlotClass)
      case Some(cls) =>
        ContainsIff(cls, "filled");
        SlotJobsBound(title);
        Ok(Slot(SlotJobs(title), Contains(cls, "filled")))
  }

  /** `get_listings`' closure for one `.listing` element. The fields are
      read in the source's order (duty, creator, description, slots,
      data-centre, category), so the error is that of the first that is
      missing. */
  function ParseListing(e: ListingElement): (r: Result<PFListing, ScrapeError>)
    ensures e.duty.None? ==> r == Err(MissingDuty)
    ensures e.duty.Some? && e.creator.None? ==> r == Err(MissingCreator)
    ensures e.duty.Some? && e.creator.Some? && e.description.None? ==> r == Err(MissingDescription)
    ensures e.duty.Some? && e.creator.Some? && e.description.Some?
      && (forall i :: 0 <= i < |e.slots| ==> ParseSlot(e.slots[i]).Ok?) && e.dataCentre.None?
      ==> r == Err(MissingDataCentre)
    ensures e.duty.Some? && e.creator.Some? && e.description.Some?
      && (forall i :: 0 <= i < |e.slots| ==> ParseSlot(e.slots[i]).Ok?) && e.dataCentre.Some? && e.pfCategory.None?
      ==> r == Err(MissingPfCategory)
    ensures forall i :: (0 <= i < |e.slots| && e.duty.Some? && e.creator.Some? && e.description.Some?
      && ParseSlot(e.slots[i]).Err? && (forall k :: 0 <= k < i ==> ParseSlot(e.slots[k]).Ok?)
      ==> r == Err(ParseSlot(e.slots[i]).error))
    ensures r.Ok? <==>
      && e.duty.Some? && e.creator.Some? && e.description.Some?
      && (forall i :: 0 <= i < |e.slots| ==> ParseSlot(e.slots[i]).Ok?)
      && e.dataCentre.Some? && e.pfCategory.Some?
    ensures r.Ok? ==>
      && r.value.title == e.duty.value
      && r.value.author == e.creator.value
      && r.value.description == e.description.value
      && r.value.dataCenter == e.dataCentre.value
      && r.value.pfCategory == e.pfCategory.value
      && r.value.flags == Unscraped && r.value.lastUpdated == Unscraped
      && r.value.expiresIn == Placeholder && r.value.minIlvl == Placeholder
    ensures r.Ok? ==>
      && |r.value.slots| == |e.slots|
      && forall i :: 0 <= i < |e.slots| ==> ParseSlot(e.slots[i]) == Ok(r.value.slots[i])
  {
    match e.duty
    case None => Err(MissingDuty)
    case Some(title) =>
      match e.creator
      case None => Err(MissingCreator)
      case Some(author) =>
        match e.description
        case None => Err(MissingDescription)
        case Some(description) =>
          match MapAll(ParseSlot, e.slots)
          case Err(err) => Err(err)
          case Ok(slots) =>
            match e.dataCentre
            case None => Err(MissingDataCentre)
            case Some(dataCenter) =>
              match e.pfCategory
              case None => Err(MissingPfCategory)
              case Some(pfCategory) =>
                Ok(PFListing(title, author, Unscraped, description, slots,
                             Unscraped, Placeholder, Placeholder, dataCenter, pfCategory))
  }

  /** `get_listings`: one listing per `.listing` element, in document
      order; the first element that cannot be read aborts the whole scrape. */
  function GetListings(elements: seq<ListingElement>): (r: Result<seq<PFListing>, ScrapeError>)
    ensures r.Ok? <==> forall i :: 0 <= i < |elements| ==> ParseListing(elements[i]).Ok?
    ensures r.Ok? ==>
      && |r.value| == |elements|
      && forall i :: 0 <= i < |elements| ==> ParseListing(elements[i]) == Ok(r.value[i])
    ensures r.Err? ==> exists i :: (0 <= i < |elements| && ParseListing(elements[i]) == Err(r.error)
      && forall k :: 0 <= k < i ==> ParseListing(elements[k]).Ok?)
  {
    MapAll(ParseListing, elements)
  }
}
