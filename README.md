# Spotify client core: sum-type decoding, release dates, show request URLs

This project is a Dafny model of the three pieces of logic in the Go Spotify
Web API client (`xonstone/spotify`) that do more than hold fields:

- **sum.go**: `SumSimpleEpisodeSimpleTrack` and `SumFullEpisodeFullTrack`
  each have an `UnmarshalJSON`. It first decodes just the `type` tag through
  the `typedItem` envelope. A tag of `"episode"` then fills the episode slot.
  Any other tag fills the track slot: `"track"`, an unknown value, or the `""`
  of a missing tag. The receivers are classes with two nullable slots. Their
  methods are proved against one generic function, `Sum.Unmarshal`, and the
  lemmas beside it state the error paths, which slot changes, and that
  nothing else changes. The slot is assigned before the variant decoder runs,
  so a failing variant decode leaves that slot set. The update is not atomic.
- **episode.go**: `SimpleEpisode.ReleaseDateTime` maps the release date and
  its precision to the year, month and day handed to `time.Date`. The
  `strconv.Atoi` and `strings.Split` it relies on are modelled exactly
  (`Strconv`, `Strings`). `time.Parse` is a parameter.
- **show.go**: `GetShowOpt` and `GetShowEpisodesOpt` build the request URL
  step by step. `url.Values` is a class that `Set` changes in place, and its
  `Encode` is a loop over the sorted keys, proved against a specification.
  The methods are proved to request exactly the reference URL `ShowURL` /
  `EpisodesURL`: the path, then `?` and the key-sorted `key=value` pairs when
  an option the method reads is set (GetShowOpt reads only the country).
  The lemmas state when each parameter appears, that the query splits back
  into its pairs, and a worked example.

The HTTP fetch `Client.get` is a function parameter from URL to result or
error. So are the variant record decoders of `encoding/json` and
`time.Parse`.

Modules: `Wrappers` (Option, Result), `Strings`, `Strconv`, `Url`, `Json`,
`Sum`, `Episode`, `Show`, one file each.

## Model

| member | source | states |
|---|---|---|
| `Sum.Unmarshal` | sum.go:10-34 | if the envelope fails the slots are unchanged; in every case at most one of the two slots changes |
| `Sum.SumSimpleEpisodeSimpleTrack.UnmarshalJSON` | sum.go:10-34 | the new slots and the returned error are those of `Unmarshal` from the old slots |
| `Sum.SumFullEpisodeFullTrack.UnmarshalJSON` | sum.go:41-65 | the Full sum follows the same `Unmarshal` as the Simple sum: same branching and errors, only the record types differ |
| `Sum.SumSimpleEpisodeSimpleTrack.constructor` | sum.go:5-8 | the zero value has both slots nil |
| `Sum.SumFullEpisodeFullTrack.constructor` | sum.go:36-39 | the zero value has both slots nil |
| `Sum.EnvelopeErrorLeavesSlots` | sum.go:11-15 | an envelope decode error is returned as it is, and neither slot is touched |
| `Sum.MalformedLeavesSlots` | sum.go:13-14 | malformed input gives a syntax error with both slots unchanged |
| `Sum.EpisodeTagSetsEpisode` | sum.go:17-22 | tag "episode": the episode slot gets the decoded record, the track slot keeps its old value, and the decoder's error (nil on success) is returned |
| `Sum.OtherTagSetsTrack` | sum.go:23-29 | any tag other than "episode": the track slot gets the decoded record, the episode slot keeps its old value, and the decoder's error is returned |
| `Sum.VariantErrorKeepsSlot` | sum.go:17-29 | when the chosen variant decoder fails, an error is returned although the chosen slot already holds a record |
| `Sum.ExactlyOneSlot` | sum.go:17-32 | from the zero value, a decode that returns nil leaves exactly one slot non-nil: the episode slot if and only if the tag is "episode" |
| `Sum.MissingTagIsTrack` | sum.go:23-29 | an object with no "type" member selects the track slot |
| `Sum.EpisodeScenario` | sum.go:17-22 | {"type":"episode","name":"Ep1","duration_ms":120000} fills only the episode slot |
| `Sum.TrackScenario` | sum.go:23-29 | {"type":"track","name":"Song1"} fills only the track slot |
| `Sum.UntaggedScenario` | sum.go:23-29 | {"name":"Unknown"} fills only the track slot |
| `Sum.MistypedTagScenario` | sum.go:13-14 | {"type":5} fails with a type error on field "type", and no slot is touched |
| `Json.DecodeTypedItem` | sum.go:67-69 | decoding the envelope gives a syntax error exactly for malformed input; a JSON null decodes to the empty tag |
| `Json.SingleTypeMember` | sum.go:11-17 | an object with a single "type" member holding a string decodes to exactly that tag |
| `Json.NoTypeKey` | sum.go:11-15 | an object with no member named "type" decodes to the empty tag "" with no error |
| `Episode.ReleaseDateTime` | episode.go:89-102 | for any precision except "day" the day is 1; for any precision except "day" and "month" the month is also 1 |
| `Episode.DayPrecision` | episode.go:90-93 | precision "day": the parsed date, or the zero time (January 1 of year 1) when parsing fails |
| `Episode.MonthPrecision` | episode.go:94-99 | precision "month" on y-m or y-m-…: year Atoi(y), month Atoi(m), day 1; later pieces are ignored |
| `Episode.YearPrecision` | episode.go:100-101 | other precisions: a date that is a decimal int n gives January 1 of year n |
| `Episode.BadYearIsZero` | episode.go:94-101 | a year numeral with a syntax error becomes year 0, because the error is dropped |
| `Episode.NonNumericYearIsZero` | episode.go:94-101 | outside "day", a year (the whole date, or its first piece at precision "month") that does not start with a digit is read as year 0 |
| `Episode.NonNumericMonthIsZero` | episode.go:94-99 | at precision "month", a month piece that does not start with a digit is read as month 0 |
| `Episode.NonNumericYearExample` | episode.go:100-101 | "abc" at precision "year" is January 1 of year 0 |
| `Episode.MonthExample` | episode.go:94-99 | "1981-12-15" at precision "month" is December 1, 1981 |
| `Episode.PaddedMonthExample` | episode.go:94-99 | "2020-03" at precision "month" is March 1, 2020: a zero-padded month reads as its number |
| `Strings.Split` | episode.go:95 | there is always at least one piece, and no piece contains the separator |
| `Strings.JoinSplit` | episode.go:95 | joining the pieces with the separator gives back the original string |
| `Strings.SplitJoin` | episode.go:95 | splitting a join of separator-free pieces gives back those pieces |
| `Strings.SplitHasTwoPieces` | episode.go:95-97 | the second piece that the month branch reads exists if and only if the date contains '-' |
| `Strconv.Atoi` | episode.go:96-100 | succeeds if and only if the input is an optional sign and a non-empty run of digits whose value fits in a 64-bit int, and then gives that signed value (so "03" is 3); a range error comes exactly when the leading digits exceed 2^64 - 1, or when a well-formed numeral does not fit, and gives MinInt for a numeral starting with '-' and MaxInt otherwise; every other failure is a syntax error with value 0 |
| `Strconv.NotNumeral` | episode.go:96-100 | input that does not start with a digit after its optional sign ("", "-", "abc") is a syntax error with value 0 |
| `Strconv.Decimal` | show.go:125 | the numeral is non-empty and all digits, has no leading zero, and denotes n |
| `Strconv.Itoa` | show.go:125-128 | the numeral starts with '-' exactly for a negative n, the digits after it denote the magnitude of n, and there is no leading zero except in "0" itself |
| `Strconv.AtoiItoa` | show.go:125-128 | Atoi reads back exactly what Itoa writes for every 64-bit int |
| `Strconv.ItoaCharacters` | show.go:125-128 | Itoa writes only digits, with a '-' allowed only in first position |
| `Url.Values.constructor` | show.go:90 | `url.Values{}` holds no keys |
| `Url.Values.Set` | show.go:92 | Set replaces the key's values with the single given value and leaves every other key as it was |
| `Url.Values.Encode` | show.go:94 | the encoding is the escaped pairs of all keys in increasing key order, joined by '&' |
| `Url.SortStrings` | show.go:94 | the map's keys come out strictly increasing, each exactly once |
| `Url.SortedKeysUnique` | show.go:94 | a strictly increasing sequence is determined by its set of elements, so the sorted key order is unique |
| `Url.QueryEscape` | show.go:94 | an escaped key or value never contains the query separators '&' or '=' |
| `Url.EscapeUnreserved` | show.go:130 | a string of unreserved characters escapes to itself |
| `Url.EncodedEmpty` | show.go:94 | the encoding is empty if and only if no key has a value |
| `Url.EncodedParams` | show.go:90-96 | setting parameters with strictly increasing keys and encoding them writes exactly their pairs, in that order |
| `Url.ParamQueryEmpty` | show.go:94-96 | the encoded parameters are empty if and only if there are none, so '?' is added only when there is a parameter |
| `Url.QuerySeparates` | show.go:94-95 | the query splits at '&' back into its pairs, and each pair splits at '=' into its escaped key and value |
| `Show.Client.GetShowOpt` | show.go:87-107 | fetches `ShowURL`; on success it returns the show with a nil error; on a fetch error it returns a nil show and that error unchanged |
| `Show.Client.GetShow` | show.go:81-83 | behaves as GetShowOpt with nil options: fetches base + "shows/" + id |
| `Show.Client.GetShowEpisodesOpt` | show.go:117-143 | fetches `EpisodesURL`; on success it returns the page with a nil error; on a fetch error it returns a nil page and that error unchanged |
| `Show.Client.GetShowEpisodes` | show.go:111-113 | behaves as GetShowEpisodesOpt with nil options |
| `Show.SetOrder` | show.go:121-129 | setting market, then limit, then offset fills the same map as setting them in key order |
| `Show.NoOptionsNoQuery` | show.go:88-89 | with nil options the URL is the bare path: base + "shows/" + id, or that + "/episodes" |
| `Show.QueryOnlyWhenSet` | show.go:94-132 | '?' and a non-empty query are appended if and only if some option the method reads is set (for GetShowOpt, only the country) |
| `Show.ShowMarketIff` | show.go:89-93 | GetShowOpt's query has market if and only if a country is given, and then it holds exactly that country |
| `Show.EpisodesParamsIff` | show.go:121-129 | market, limit and offset each appear if and only if their option is set, with the country and the Itoa of limit and offset as values |
| `Show.QueryHasParams` | show.go:94-95 | the query holds the piece key=value exactly when some parameter escapes to that key and that value |
| `Show.ShowQueryIff` | show.go:88-96 | GetShowOpt's URL is the path, plus '?' and the query when that is not empty; the query holds market=v exactly when a country is given and v is its escape |
| `Show.EpisodesQueryIff` | show.go:118-132 | GetShowEpisodesOpt's URL is the path, plus '?' and the query when that is not empty; the query holds market=v, limit=v and offset=v exactly when that option is set, with the escaped country and the decimal limit and offset as v |
| `Show.DecimalUnescaped` | show.go:125-128 | limit and offset appear in the query as plain decimal numerals, with no escaping |
| `Show.EpisodesURLExample` | show.go:117-133 | country ES, limit 20 and offset 5 give …/episodes?limit=20&market=ES&offset=5 |

## Left out

- `Client.get` and the client's transport and authentication are network I/O. `get` is a function parameter that maps a URL to a decoded result or an error, so it is deterministic here.
- The `encoding/json` internals are not modelled: the scanner, UTF-8 checks, string escapes, struct-tag mapping and unknown keys. The input is a `Json.Raw`, which is either malformed or a syntax-checked JSON value. The variant decoders (`json.Unmarshal` into `&SimpleEpisode{}` and the rest) are function parameters that return the record and an optional error.
- Key matching for the tag: Go matches object keys against `type` exactly and then ignoring case. For these four letters, ASCII case folding gives the same result, so only that is modelled.
- Pointers and allocation: the slots hold values (`Option`), not heap records. Go allocates `&SimpleEpisode{}` and then fills it in place; the model does this as one assignment of the decoded record, made before the error is checked. Aliasing of the record pointers is not modelled.
- `time.Parse`, the `DateLayout` constant, `time.Date` normalisation of out-of-range months and days, and the hour, minute, second and zone of the result are not modelled. A date is the (year, month, day) passed to `time.Date`, always at 00:00:00 UTC. The zero time is (1, 1, 1).
- Episode.ReleaseDateTime: requires a '-' in the date when the precision is "month". Go indexes the second piece without checking its length and panics there, and the model does not represent a panic.
- Go's `int` is taken to be 64 bits. This affects `Atoi`'s range and its clamping to the nearest bound.
- `sort.Strings` is modelled by its result, the unique strictly increasing order of the keys. Its algorithm is not modelled, and the model sorts by insertion.
- `url.Values.Encode` returns "" for a nil map. That case cannot arise here, because `v` is always allocated.
- `QueryEscape` works on Unicode characters and escapes their UTF-8 bytes. A Go string holding invalid UTF-8 cannot be represented.
- Record types with no behaviour are abstract types or reduced to the fields that are read. These are `SimpleTrack`, `FullTrack`, `FullShow`, `SimpleEpisodePage`, `SavedShow`, `SimpleShow`, `ResumePointObject` and the remaining `SimpleEpisode` fields. `Options` has only the three fields used here. `FullEpisode` embeds `SimpleEpisode` and adds nothing, so its promoted `ReleaseDateTime` is the same function.
- Strconv.Atoi: is modelled for ASCII decimal input with an optional sign. Go's underscores and base prefixes apply only to base 0, which Atoi never uses, so nothing is lost.
