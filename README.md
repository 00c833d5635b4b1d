# trappingway in Dafny

trappingway is a Discord bot. It scrapes the Final Fantasy XIV party-finder
page and posts the ultimate-raid listings of one data centre as an embed.
This project models the bot's pure core and proves properties of it:

- the job and role taxonomy and its lookup tables (`Job`, `Role`, the job-code
  decoder, the job glyphs and display names, the composite slot icon, the
  duty colour);
- the decoding of a scraped party slot and the assembly of a listing record
  from an already-extracted HTML element;
- the two autocomplete filters, the listing filter of `display_xivpfs`, and
  the loop in `send_message` that turns up to fifteen listings into embed
  fields.

Files:

- `wrappers.dfy` holds `Option` and `Result`.
- `seqs.dfy` holds a generic `Filter` (the iterator `filter`) and `MapAll`,
  with their lemmas. `MapAll` stands for a `map` whose closure may `unwrap` a
  missing value, followed by `collect` into a `Vec`: the first failure ends
  the whole run.
- `strings.dfy` holds `split(" ")`, `join(" ")` and `contains` on strings.
- `xiv_util.dfy` models `src/xiv_util.rs`.
- `scraper_util.dfy` models `src/scraper_util.rs`.
- `commands.dfy` models `src/main.rs`.

The emoji strings of the glyph tables are written as
`CustomEmoji(name, id)`, which builds the text `<:name:id>`. Each name and
each id is taken verbatim from the table. Injectivity of the glyphs follows
from the ids alone.

Modelling decisions:

- **Slot field name.** The scraper and `send_message` call a slot's job list
  `available_roles`. The struct in `src/xiv_util.rs:64-67` names it
  `available_jobs`. They are one field here, `availableJobs`.
- **Listing record.** The scraper sets `time_remaining` and `min_ilvl` to
  `5u32` (`src/scraper_util.rs:27-28`). The struct in `src/xiv_util.rs:49-60`
  has no `time_remaining` field. Its `min_ilvl` (line 57) is a `String`, not
  a `u32`. The model uses the struct and fills the fields the scraper does
  not set with opaque strings:
  - `flags` and `last_updated` become `""`;
  - `expires_in` and `min_ilvl` become `"5"`.
- **Missing attributes.** Each `unwrap` on an absent element or attribute
  panics and ends the whole scrape. The model gives an error instead:
  `ScrapeError` names the first missing piece in the order the code reads
  them, and `GetListings` fails as a whole, as the panic would. No bad
  record is skipped.
- **Tokenising.** The code splits a slot title on exactly one space
  (`split(" ")` at `src/scraper_util.rs:18`), not on runs of whitespace.
  Runs of spaces give empty tokens, which `from_str` rejects.
- **Listing filter.** The code at `src/main.rs:109` does not look at the
  requested duty. It keeps a listing when:
  - its data centre matches;
  - its category is `HighEndDuty`;
  - its title contains `Ultimate`.

## Model

| member | source | states |
|---|---|---|
| XivUtil.TankRole | src/xiv_util.rs:142-153 | `get_role` is Tank exactly for Paladin, Gunbreaker, DarkKnight, Warrior, Marauder and Gladiator |
| XivUtil.HealerRole | src/xiv_util.rs:142-153 | `get_role` is Healer exactly for Conjurer, WhiteMage, Scholar, Astrologian and Sage |
| XivUtil.DpsRole | src/xiv_util.rs:142-153 | `get_role` is DPS exactly for the other eighteen jobs |
| XivUtil.GetRole | src/xiv_util.rs:142-153 | a job is a tank exactly when it is in the tank vector, and a healer exactly when it is in the healer vector, so no job is in both vectors |
| XivUtil.FromStr | src/xiv_util.rs:196-231 | only three-letter upper-case strings decode, so the empty string and lower-case codes are errors |
| XivUtil.FromStrCode | src/xiv_util.rs:196-231 | every one of the 29 jobs is decoded from its code, so the decoder is surjective |
| XivUtil.FromStrOnlyCodes | src/xiv_util.rs:196-231 | a string that decodes is the job's primary code or one of the aliases RGE and ACN |
| XivUtil.FromStrAccepts | src/xiv_util.rs:196-231 | the decoder succeeds exactly on the 29 primary codes and the 2 aliases; RGE gives Rogue and ACN gives Arcanist |
| XivUtil.FromStrNotInjective | src/xiv_util.rs:209-228 | ROG and RGE both give Rogue, and ARN and ACN both give Arcanist |
| XivUtil.CodeInjective | src/xiv_util.rs:198-228 | distinct jobs have distinct primary codes |
| XivUtil.Decimal | src/xiv_util.rs:110-138 | the decimal text of an emoji id is a non-empty run of digits |
| XivUtil.DecimalInjective | src/xiv_util.rs:110-138 | distinct ids have distinct decimal texts |
| XivUtil.CustomEmojiId | src/xiv_util.rs:87-138 | two equal `<:name:id>` texts carry the same id |
| XivUtil.CustomEmojiNoSpace | src/xiv_util.rs:87-138 | an emoji text with a space-free name has no space |
| XivUtil.IdRoundTrip | src/xiv_util.rs:110-138 | each job's emoji id identifies the job |
| XivUtil.Glyph | src/xiv_util.rs:108-139 | each job's glyph is a Discord custom-emoji reference: it starts with `<:` and ends with `>` |
| XivUtil.GlyphInjective | src/xiv_util.rs:108-139 | `Job::get_emoji_string` is injective over the 29 jobs |
| XivUtil.GlyphNoSpace | src/xiv_util.rs:108-139 | no job glyph contains a space |
| XivUtil.Name | src/xiv_util.rs:156-190 | each job's display name is non-empty and capitalised |
| XivUtil.NameRoundTrip | src/xiv_util.rs:156-190 | each job's display name reads back to the job |
| XivUtil.NameInjective | src/xiv_util.rs:156-190 | `Display for Job` is injective over the 29 jobs |
| XivUtil.HasRoleIff | src/xiv_util.rs:82-84 | a slot's `any(get_role == role)` test holds exactly when the role is among its jobs' roles |
| XivUtil.CustomEmojiNonEmpty | src/xiv_util.rs:87-138 | no emoji text is empty |
| XivUtil.RoleIconInjective | src/xiv_util.rs:86-102 | distinct role triples give distinct open-slot icons, so the 7 non-empty triples give 7 distinct icons; the icon is "" exactly for the all-false triple |
| XivUtil.RoleEmojiIdInjective | src/xiv_util.rs:86-99 | the 7 role emoji ids are pairwise distinct |
| XivUtil.OpenSlotIconOfRoles | src/xiv_util.rs:82-102 | an open slot's icon depends only on which roles its jobs cover |
| XivUtil.OpenSlotIconIff | src/xiv_util.rs:82-102 | two open slots have the same icon exactly when their jobs cover the same roles |
| XivUtil.OpenSlotIconIgnoresOrder | src/xiv_util.rs:82-102 | reordering or duplicating an open slot's jobs leaves its icon unchanged |
| XivUtil.FilledSlotIconIff | src/xiv_util.rs:76-80 | a filled slot shows its first job's glyph, so two filled slots have the same icon exactly when their first jobs agree |
| XivUtil.SlotIcon | src/xiv_util.rs:75-104 | a slot's icon is "" exactly when its job list is empty, whether the slot is filled or open |
| XivUtil.SlotIconNoSpace | src/xiv_util.rs:75-104 | no slot icon contains a space |
| XivUtil.GetColorFromDuty | src/xiv_util.rs:235-242 | the colour is a 24-bit value, and it is the default 0xf0a057 exactly for names other than the four ultimates |
| XivUtil.UltimateColorsDistinct | src/xiv_util.rs:237-240 | the four ultimates have four distinct colours |
| Strings.Split | src/scraper_util.rs:18 | `split(" ")` gives one more piece than there are spaces, and no piece contains a space |
| Strings.JoinSplit | src/scraper_util.rs:18 | joining the pieces of `split(" ")` with single spaces gives back the original string |
| Strings.SplitJoin | src/main.rs:40 | splitting a space-join of space-free strings gives back those strings |
| Strings.Join | src/main.rs:40 | joining a non-empty list of pieces starts with the first piece |
| Strings.Contains | src/scraper_util.rs:24 | a needle longer than the haystack is never contained |
| Strings.ContainsIff | src/scraper_util.rs:24 | `contains` holds exactly when the needle occurs at some position of the haystack |
| Seqs.Filter | src/main.rs:20 | a filter keeps only elements of its input that satisfy the predicate, and is no longer than the input |
| Seqs.MapAll | src/scraper_util.rs:13-45 | collecting results succeeds exactly when every element succeeds, keeps length and order, and otherwise reports the first failure |
| ScraperUtil.DecodeJobs | src/scraper_util.rs:18-23 | a slot has no more jobs than its title has tokens |
| ScraperUtil.SlotJobs | src/scraper_util.rs:18-23 | a slot title yields at most one job per space-separated token |
| ScraperUtil.JobsOf | src/scraper_util.rs:18-23 | decoding recognised codes gives one job per code, each the decoder's result for that code |
| ScraperUtil.DecodeJobsIsFilterThenDecode | src/scraper_util.rs:18-23 | the job list is the decoding of the subsequence of tokens that are job codes, in token order |
| ScraperUtil.DecodeJobsAppend | src/scraper_util.rs:18-23 | decoding two runs of tokens gives the first run's jobs followed by the second run's |
| ScraperUtil.DecodeJobsSkipsUnknown | src/scraper_util.rs:18-23 | an unknown token, the empty token included, is dropped without a trace |
| ScraperUtil.SlotJobsBound | src/scraper_util.rs:18-23 | a slot has at most one job per space-separated token, and an empty or all-space title gives no job |
| ScraperUtil.EmptyTokensDecodeToNothing | src/scraper_util.rs:18-23 | empty tokens decode to no job |
| ScraperUtil.SplitAllSpaces | src/scraper_util.rs:18 | every token of an all-space title is empty |
| ScraperUtil.ParseSlot | src/scraper_util.rs:17-26 | a slot reads when both `title` and `class` are present, otherwise it fails naming the first missing one; its jobs are the decoded title tokens; it is filled exactly when `class` contains "filled" |
| ScraperUtil.ParseListing | src/scraper_util.rs:13-45 | a listing reads when duty, creator, description, every slot, data centre and category are present; otherwise it fails with the first missing piece in the code's order, and a failing slot gives the error of the first slot that fails; the strings are copied verbatim, there is one slot per slot element in order, and the unread fields hold their placeholders |
| ScraperUtil.GetListings | src/scraper_util.rs:6-46 | the scrape succeeds exactly when every listing element reads, with one listing per element in order, and otherwise reports the error of the first element that fails |
| Commands.AutocompleteDatacenter | src/main.rs:18-22 | at most nine suggestions, each a listed data centre that starts with the partial input |
| Commands.AutocompleteDuty | src/main.rs:24-28 | at most five suggestions, each a listed duty that starts with the partial input |
| Commands.AutocompleteSpec | src/main.rs:18-28 | autocomplete offers exactly the names that start with the partial input, each as often as the list holds it |
| Commands.AutocompleteKeepsOrder | src/main.rs:18-28 | the suggestions keep the list's order |
| Commands.AutocompleteEmpty | src/main.rs:18-28 | an empty partial input offers the whole list |
| Commands.DatacenterAutocompleteAll | src/main.rs:18-22 | an empty partial input offers all nine data centres |
| Commands.DutyAutocompleteRepeats | src/main.rs:24-28 | any prefix of The Weapon's Refrain offers it at least twice, so the duty suggestions repeat |
| Commands.DistinctDutyChoicesSpec | src/main.rs:25 | the corrected duty list has no repeat, offers the same duties as the list as written, and offers exactly the four ultimates that have their own colour |
| Commands.AutocompleteDutyDistinctSpec | src/main.rs:24-28 | the corrected duty autocomplete offers the same duties as the code, but each at most once |
| Commands.DisplayFilter | src/main.rs:109 | the filter keeps no more listings than it was given, and each kept listing is of the data centre and the HighEndDuty category |
| Commands.DisplayFilterSpec | src/main.rs:109 | the listing filter keeps exactly the listings of the data centre whose category is HighEndDuty and whose title contains "Ultimate", each as often as the input holds it |
| Commands.DisplayFilterKeepsOrder | src/main.rs:109 | the listing filter keeps the listings' order |
| Commands.SlotIcons | src/main.rs:40 | there is one icon per slot, in slot order; no icon holds a space, and an icon is empty exactly when its slot lists no job |
| Commands.FieldFor | src/main.rs:39-40 | a field is named "title - author" and is not inline; for a renderable listing its value splits back into one non-empty icon per slot, in slot order |
| Commands.IconsSplitBack | src/main.rs:40 | the space-joined icons of slots that each list a job split back into those icons, none empty |
| Commands.Fields | src/main.rs:34-40 | skipping listings never yields more fields than listings |
| Commands.FieldsAppend | src/main.rs:34-40 | the fields of two runs of listings are the first run's fields followed by the second run's |
| Commands.FieldsIsFilterThenRender | src/main.rs:34-40 | the fields are, in order, the fields of the listings that have at least one slot and no slot with an empty job list |
| Commands.FieldsOneMore | src/main.rs:34-40 | each further listing adds its field, or nothing when it is skipped |
| Commands.RenderedFields | src/main.rs:34 | there are at most fifteen fields, and no more than there are listings |
| Commands.RenderedIgnoresLater | src/main.rs:34-37 | listings after the fifteenth never produce a field, even when earlier ones were skipped |
| Commands.SendMessageFields | src/main.rs:34-40 | the loop builds exactly the fields of the first fifteen listings that are renderable, hence at most fifteen and no more than the listings |

## Left out

- The Discord and poise calls are not modelled: building and sending embeds, `ctx.say`, the channel-kind check and command registration (`src/main.rs:44`, 68-77, 92-127, 149-161). They are external I/O.
- The embed colour, title and footer constants (`src/main.rs:31-33`, 43) are not modelled. They are presentation settings without logic.
- The SQLite queries are not modelled (`src/main.rs:48-51`, 58-61, 101-105, 132-142). They are persistent-store I/O.
- HTML parsing and CSS selection with the `scraper` crate (`src/scraper_util.rs:7-16`) are not modelled. They are a foreign library. A listing element is a record of already-extracted strings, where `None` stands for a missing element, a missing attribute, or an element without text.
- File reading in `get_sample_listings` and the unused `test` (`src/scraper_util.rs:48-73`) are not modelled. They are file I/O.
- The commented-out main and timer loop (`src/main.rs:164-186`) are not modelled. They are not live code.
- `Slot::to_string` (`src/xiv_util.rs:71-74`) is not modelled. It is debug formatting only.
- The autocomplete streams are modelled as sequences. Their asynchrony is left out.
- The scraper's `time_remaining` has no field in the listing struct, and its `min_ilvl` is a `u32` where the struct's is a `String`. The model stores the placeholder `5` as the string `"5"` in `expires_in` and `min_ilvl`.

## Findings

| source | as written | input that shows it | evidently intended | confidence | as-written member | corrected member |
|---|---|---|---|---|---|---|
| src/main.rs:25 | the duty list holds "The Weapon's Refrain (Ultimate)" twice, so duty autocomplete suggests it twice | partial input "" or "The W" | each of the four ultimates once, matching the duties `get_color_from_duty` knows | medium, not executed | Commands.DutyAutocompleteRepeats | Commands.AutocompleteDutyDistinctSpec |
