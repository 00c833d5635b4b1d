/** The pure logic of the bot's commands in `src/main.rs`: the two
    autocomplete filters, the listing filter of `display_xivpfs` and the
    embed fields `send_message` builds. The Discord and SQLite calls around
    them are not modelled. */
module Commands {
  import opened Seqs
  import opened Strings
  import opened XivUtil

  // ---------------------------------------------------------------- autocomplete

  /** The data centres `autocomplete_datacenter` offers. */
  const DataCenters: seq<string> :=
    ["Crystal", "Aether", "Primal", "Elemental", "Gaia", "Mana", "Chaos", "Light", "Materia"]

  /** The duties `autocomplete_duty` offers, as written: The Weapon's
      Refrain appears twice. */
  const DutyChoices: seq<string> := [
    "The Weapon's Refrain (Ultimate)", "The Unending Coil of Bahamut (Ultimate)",
    "The Weapon's Refrain (Ultimate)", "Dragonsong's Reprise (Ultimate)",
    "The Epic of Alexander (Ultimate)"]

  /** The names of `names` that start with `partial`, in list order. */
  function Autocomplete(names: seq<string>, partial: string): seq<string>
  {
    Filter((name: string) => partial <= name, names)
  }

  /** `autocomplete_datacenter`: at most the nine data centres, each
      suggestion one of them and starting with `partial`. */
  function AutocompleteDatacenter(partial: string): (r: seq<string>)
    ensures |r| <= 9 && forall x :: x in r ==> x in DataCenters && partial <= x
  {
    Autocomplete(DataCenters, partial)
  }

  /** `autocomplete_duty`, over the list as written: at most five
      suggestions, each a listed duty starting with `partial`. */
  function AutocompleteDuty(partial: string): (r: seq<string>)
    ensures |r| <= 5 && forall x :: x in r ==> x in DutyChoices && partial <= x
  {
    Autocomplete(DutyChoices, partial)
  }

  /** Autocomplete offers exactly the names that start with `partial`, each
      as often as the list holds it, in the list's order. */
  lemma {:induction false} AutocompleteSpec(names: seq<string>, partial: string, x: string)
    ensures x in Autocomplete(names, partial) <==> x in names && partial <= x
    ensures multiset(Autocomplete(names, partial))[x] == if partial <= x then multiset(names)[x] else 0
    ensures |Autocomplete(names, partial)| <= |names|
  {
    if x in names && partial <= x {
      FilterKeeps((name: string) => partial <= name, names, x);
    }
    FilterCount((name: string) => partial <= name, names, x);
  }

  /** The relative order of the names kept is that of the list. */
  lemma {:induction false} AutocompleteKeepsOrder(a: seq<string>, b: seq<string>, partial: string)
    ensures Autocomplete(a + b, partial) == Autocomplete(a, partial) + Autocomplete(b, partial)
  {
    FilterAppend((name: string) => partial <= name, a, b);
  }

  /** An empty `partial` offers the whole list. */
  lemma {:induction false} AutocompleteEmpty(names: seq<string>)
    ensures Autocomplete(names, "") == names
  {
    FilterAll((name: string) => "" <= name, names);
  }

  /** All nine data centres are offered for an empty `partial`. */
  lemma {:induction false} DatacenterAutocompleteAll()
    ensures AutocompleteDatacenter("") == DataCenters && |AutocompleteDatacenter("")| == 9
  {
    AutocompleteEmpty(DataCenters);
  }

  /** Any prefix of The Weapon's Refrain, the empty one included, offers
      it at least twice, so the suggestions repeat. */
  lemma {:induction false} DutyAutocompleteRepeats(partial: string)
    requires partial <= DutyChoices[0]
    ensures multiset(AutocompleteDuty(partial))[DutyChoices[0]] >= 2
    ensures !NoDuplicates(AutocompleteDuty(partial))
  {
    var uwu := DutyChoices[0];
    AutocompleteSpec(DutyChoices, partial, uwu);
    assert DutyChoices[2] == uwu;
    RepeatedCount(DutyChoices, 0, 2);
    if NoDuplicates(AutocompleteDuty(partial)) {
      NoDuplicatesCount(AutocompleteDuty(partial), uwu);
    }
  }

  /** The duty list with each duty once: the four ultimates the colour
      table knows. */
  const DistinctDutyChoices: seq<string> := [
    "The Weapon's Refrain (Ultimate)", "The Unending Coil of Bahamut (Ultimate)",
    "Dragonsong's Reprise (Ultimate)", "The Epic of Alexander (Ultimate)"]

  /** `autocomplete_duty` over the list without the repeated entry. */
  function AutocompleteDutyDistinct(partial: string): seq<string>
  {
    Autocomplete(DistinctDutyChoices, partial)
  }

  /** The corrected list holds each duty once, the same duties as the
      list as written, and exactly the ultimates that get their own colour. */
  lemma DistinctDutyChoicesSpec()
    ensures NoDuplicates(DistinctDutyChoices)
    ensures forall d :: d in DistinctDutyChoices <==> d in DutyChoices
    ensures forall d :: d in DistinctDutyChoices <==> d in UltimateDuties
  {
  }

  /** The corrected autocomplete offers the same duties as the code as
      written, each at most once. */
  lemma {:induction false} AutocompleteDutyDistinctSpec(partial: string, x: string)
    ensures x in AutocompleteDutyDistinct(partial) <==> x in AutocompleteDuty(partial)
    ensures multiset(AutocompleteDutyDistinct(partial))[x] <= 1
  {
    DistinctDutyChoicesSpec();
    AutocompleteSpec(DistinctDutyChoices, partial, x);
    AutocompleteSpec(DutyChoices, partial, x);
    NoDuplicatesCount(DistinctDutyChoices, x);
  }

  // ---------------------------------------------------------------- listing filter

  /** The condition `display_xivpfs` keeps a listing on: the requested data
      centre, the high-end duty category and "Ultimate" in the title. */
  predicate Shown(dataCenter: string, l: PFListing)
  {
    l.dataCenter == dataCenter && l.pfCategory == "HighEndDuty" && Contains(l.title, "Ultimate")
  }

  /** The listing filter at the centre of `display_xivpfs`. */
  function DisplayFilter(listings: seq<PFListing>, dataCenter: string): (r: seq<PFListing>)
    ensures |r| <= |listings|
    ensures forall l :: l in r ==> l in listings && l.dataCenter == dataCenter && l.pfCategory == "HighEndDuty"
  {
    Filter((l: PFListing) => Shown(dataCenter, l), listings)
  }

  /** The filter keeps exactly the listings of the data centre, in the
      high-end category, whose title contains "Ultimate", with their
      multiplicity. */
  lemma {:induction false} DisplayFilterSpec(listings: seq<PFListing>, dataCenter: string, l: PFListing)
    ensures l in DisplayFilter(listings, dataCenter) <==>
      l in listings && l.dataCenter == dataCenter && l.pfCategory == "HighEndDuty"
      && exists i :: OccursAt(l.title, "Ultimate", i)
    ensures multiset(DisplayFilter(listings, dataCenter))[l] ==
      if Shown(dataCenter, l) then multiset(listings)[l] else 0
  {
    ContainsIff(l.title, "Ultimate");
    if l in listings && Shown(dataCenter, l) {
      FilterKeeps((m: PFListing) => Shown(dataCenter, m), listings, l);
    }
    FilterCount((m: PFListing) => Shown(dataCenter, m), listings, l);
  }

  /** The filter keeps the listings' relative order. */
  lemma {:induction false} DisplayFilterKeepsOrder(a: seq<PFListing>, b: seq<PFListing>, dataCenter: string)
    ensures DisplayFilter(a + b, dataCenter) == DisplayFilter(a, dataCenter) + DisplayFilter(b, dataCenter)
  {
    FilterAppend((l: PFListing) => Shown(dataCenter, l), a, b);
  }

  // ---------------------------------------------------------------- embed fields

  /** One `embed.field(name, value, inline)` call. */
  datatype EmbedField = EmbedField(name: string, value: string, inline: bool)

  /** `take(15)`: how many listings `send_message` looks at. */
  const MaxListings: nat := 15

  /** The listings `send_message` does not skip: at least one slot, and no
      slot with an empty job list. */
  predicate Renderable(l: PFListing)
  {
    |l.slots| > 0 && forall k :: 0 <= k < |l.slots| ==> |l.slots[k].availableJobs| > 0
  }

  /** The icon of each slot, in slot order. No icon holds a space, and an
      icon is empty exactly when its slot lists no job, so the icons of
      slots that each list a job are words a space-join keeps apart. */
  function SlotIcons(slots: seq<Slot>): (r: seq<string>)
    ensures |r| == |slots| && forall k :: 0 <= k < |slots| ==> r[k] == SlotIcon(slots[k])
    ensures forall k :: 0 <= k < |slots| ==> ' ' !in r[k] && (r[k] == "" <==> slots[k].availableJobs == [])
  {
    SlotIconsShape(slots);
    seq(|slots|, k requires 0 <= k < |slots| => SlotIcon(slots[k]))
  }

  lemma SlotIconsShape(slots: seq<Slot>)
    ensures forall k :: 0 <= k < |slots| ==>
      ' ' !in SlotIcon(slots[k]) && (SlotIcon(slots[k]) == "" <==> slots[k].availableJobs == [])
  {
    forall k | 0 <= k < |slots|
      ensures ' ' !in SlotIcon(slots[k]) && (SlotIcon(slots[k]) == "" <==> slots[k].availableJobs == [])
    {
      SlotIconNoSpace(slots[k]);
    }
  }

  /** The field a listing contributes: named "{title} - {author}", its value
      the slot icons joined by single spaces. The value splits back into
      exactly one non-empty icon per slot. */
  function FieldFor(l: PFListing): (f: EmbedField)
    ensures f.name == l.title + " - " + l.author && !f.inline
    ensures Renderable(l) ==> Split(f.value) == SlotIcons(l.slots)
    ensures Renderable(l) ==> forall k :: 0 <= k < |l.slots| ==> Split(f.value)[k] != ""
  {
    IconsSplitBack(l.slots);
    EmbedField(l.title + " - " + l.author, Join(SlotIcons(l.slots), " "), false)
  }

  /** Space-joined icons of slots that each list a job split back into those
      icons, none of them empty. */
  lemma {:induction false} IconsSplitBack(slots: seq<Slot>)
    ensures (|slots| > 0 && forall k :: 0 <= k < |slots| ==> |slots[k].availableJobs| > 0) ==>
      Split(Join(SlotIcons(slots), " ")) == SlotIcons(slots)
      && forall k :: 0 <= k < |slots| ==> SlotIcons(slots)[k] != ""
  {
    if |slots| > 0 && forall k :: 0 <= k < |slots| ==> |slots[k].availableJobs| > 0 {
      SplitJoin(SlotIcons(slots));
    }
  }

  /** The fields for a run of listings, skipping those that are not
      renderable. */
  function Fields(listings: seq<PFListing>): (r: seq<EmbedField>)
    ensures |r| <= |listings|
  {
    if listings == [] then []
    else Fieldlet(listings[0]) + Fields(listings[1..])
  }

  /** The field one listing contributes: none when it is skipped. */
  function Fieldlet(l: PFListing): seq<EmbedField>
  {
    if Renderable(l) then [FieldFor(l)] else []
  }

  /** The fields of `send_message`: those of the first fifteen listings,
      so at most fifteen and no more than there are listings. */
  function RenderedFields(listings: seq<PFListing>): (r: seq<EmbedField>)
    ensures |r| <= MaxListings && |r| <= |listings|
  {
    Fields(listings[..if |listings| < MaxListings then |listings| else MaxListings])
  }

  lemma {:induction false} FieldsAppend(a: seq<PFListing>, b: seq<PFListing>)
    ensures Fields(a + b) == Fields(a) + Fields(b)
  {
    if a == [] {
      assert a + b == b;
    } else {
      assert (a + b)[0] == a[0];
      assert (a + b)[1..] == a[1..] + b;
      FieldsAppend(a[1..], b);
      calc {
        Fields(a + b);
        Fieldlet(a[0]) + Fields(a[1..] + b);
        Fieldlet(a[0]) + Fields(a[1..]) + Fields(b);
        Fields(a) + Fields(b);
      }
    }
  }

  /** The fields, read another way: the renderable listings, in order, each
      turned into its field. So a listing yields a field exactly when it is
      renderable, and fields keep the listings' order. */
  lemma {:induction false} FieldsIsFilterThenRender(listings: seq<PFListing>)
    ensures |Fields(listings)| == |Filter(Renderable, listings)|
    ensures forall k :: 0 <= k < |Fields(listings)| ==> Fields(listings)[k] == FieldFor(Filter(Renderable, listings)[k])
  {
    if listings != [] {
      FieldsIsFilterThenRender(listings[1..]);
    }
  }

  lemma FieldsOneMore(listings: seq<PFListing>, i: nat)
    requires i < |listings|
    ensures Fields(listings[..i + 1]) == Fields(listings[..i]) + Fieldlet(listings[i])
  {
    TakeOneMore(listings, i);
    FieldsAppend(listings[..i], [listings[i]]);
    assert Fields([listings[i]]) == Fieldlet(listings[i]);
  }

  /** Listings after the fifteenth never show, even when some of the first
      fifteen were skipped. */
  lemma {:induction false} RenderedIgnoresLater(listings: seq<PFListing>, later: seq<PFListing>)
    requires |listings| >= MaxListings
    ensures RenderedFields(listings + later) == RenderedFields(listings)
  {
    assert (listings + later)[..MaxListings] == listings[..MaxListings];
  }

  /** `send_message`'s loop: walk the first fifteen listings, skip those
      with no slot or with a slot listing no job, and add one field for
      each of the others. */
  method SendMessageFields(listings: seq<PFListing>) returns (fields: seq<EmbedField>)
    ensures fields == RenderedFields(listings)
    ensures |fields| <= MaxListings && |fields| <= |listings|
  {
    fields := [];
    var n := if |listings| < MaxListings then |listings| else MaxListings;
    for i := 0 to n
      invariant fields == Fields(listings[..i])
    {
      var listing := listings[i];
      FieldsOneMore(listings, i);
      var skip := |listing.slots| == 0 || exists k :: 0 <= k < |listing.slots| && |listing.slots[k].availableJobs| == 0;
      assert skip <==> !Renderable(listing);
      if skip {
        continue;
      }
      fields := fields + [FieldFor(listing)];
    }
  }
}
