# Personal food map: the experience log

This project models the logic of the food-tracking map's browser script
(`public/script.js`). A user keeps a personal log of experiences per place.
Each experience records a food, a rating, free-text notes and the date it was
logged. The log is a dictionary from place name to an ordered list of records.
It is read once from browser storage at start-up, appended to by the log
form, and written back after every append. Around it sit small pure queries
over a fixed catalogue of five places:

- the lookup that opens a place's details;
- the reminders (disliked or annotated records);
- the case-insensitive trip search, and the "shared insights" it collects
  (every liked food at every matching place);
- the region filter.

Modules:

- `Seqs` (`seqs.dfy`): `Option`, an order-preserving `Filter` (what
  `Array.prototype.filter` does), and the subsequence relation. `Filter` is
  proved against `Positions`, an independent reference: the list of positions
  at which the filter predicate holds.
- `Text` (`text.dfy`): ASCII lower-casing, and substring containment
  (`String.prototype.includes`) proved equal to "occurs at some position".
- `Places` (`places.dfy`): the place and region catalogue, `Find`,
  `TripFilter` and `ZoomRegion`.
- `Experiences` (`experiences.dfy`): records, the pure definitions of
  appending, form submission, reminders and insights, and the lemmas relating
  them. It also holds the class `ExperienceLog`. Its field `experiences` is the
  live map and its field `stored` is what was last written to storage. The
  log-form handler and the nested insight loop are methods of this class.
  Each method is proved against the pure definitions.

Three behaviours of the script that the model keeps as they are:

- The form only checks that a food and a rating are non-empty. It does not
  check that the rating is one of `liked`, `neutral` or `disliked`.
- The log is keyed by place name, not by a separate place identifier.
- Stored data that is not valid JSON makes `JSON.parse` throw at start-up. The
  store does not start empty in that case. The constructor therefore receives
  the already-parsed value.

## Model

| member | source | states |
|---|---|---|
| `Seqs.Filter` | public/script.js:67 | the filter result keeps only elements satisfying the predicate, keeps every element that satisfies it, and is no longer than its input |
| `Seqs.FilterPicksPositions` | public/script.js:67 | the filter result is exactly the elements at the positions where the predicate holds, in increasing order of position |
| `Seqs.FilterIsSubsequence` | public/script.js:109 | the filter result is an order-preserving subsequence of its input |
| `Seqs.FilterConcat` | public/script.js:67 | filtering a concatenation is the concatenation of the filtered parts |
| `Text.Lower` | public/script.js:108 | lower-casing keeps the length and maps each character to its lower-case form (upper-case ASCII letters only) |
| `Text.IncludesIffOccurs` | public/script.js:109 | the substring test holds exactly when the query occurs at some position of the string |
| `Places.Find` | public/script.js:48-49 | the lookup fails exactly when no place has the name; otherwise it returns a catalogue place with that name |
| `Places.FindReturnsFirst` | public/script.js:48 | the place found is the one at the first position carrying that name |
| `Places.TripFilter` | public/script.js:108-109 | the trip search returns exactly the catalogue places whose lower-cased name contains the lower-cased query, as a subsequence of the catalogue sitting exactly at the positions of the matching places |
| `Places.MatchesQueryIffOccurs` | public/script.js:109 | a place matches exactly when the lower-cased query occurs somewhere in its lower-cased name |
| `Places.TripFilterEmptyQuery` | public/script.js:108-109 | an empty query returns the whole catalogue in order |
| `Places.TripFilterIgnoresCase` | public/script.js:108-109 | two queries equal up to ASCII case return the same places |
| `Places.ZoomRegion` | public/script.js:128-132 | an unknown region key does nothing; a known one yields that region's view and exactly the places of that region, in catalogue order, taken from exactly the positions of the places in that region |
| `Experiences.RecordsFor` | public/script.js:66 | a place with no entry in the log reads as the empty list, never as an absent value; a place with an entry reads as its list |
| `Experiences.Append` | public/script.js:88-89 | appending adds the place as a key, puts the record after all earlier records of the place, keeps those records, and leaves every other place unchanged |
| `Experiences.Submit` | public/script.js:81-89 | a submission is refused (no change) exactly when the food is empty or no non-empty rating is checked; an accepted one appends `{food, rating, notes, date}` to its place and changes no other place |
| `Experiences.SessionAppends` | public/script.js:86-89 | after any sequence of submissions, each place holds its earlier records unchanged, followed by exactly its accepted records in submission order |
| `Experiences.Reminders` | public/script.js:66-67 | the reminders are exactly the records rated `disliked` or with non-empty notes, as an order-preserving subsequence of the place's records, sitting exactly at the positions of the qualifying records (so repeated identical records are all kept) |
| `Experiences.RemindersAfterAppend` | public/script.js:66-67 | logging a record at a place adds it at the end of that place's reminders exactly when it is disliked or annotated |
| `Experiences.LikedAtConcat` | public/script.js:118-120 | the liked foods of consecutive record lists are those of the first list followed by those of the second |
| `Experiences.LikedAtMembers` | public/script.js:118-120 | an insight comes from a place's records exactly when some record there is rated `liked` with that food |
| `Experiences.InsightsConcat` | public/script.js:116-121 | the insights of consecutive groups of places are those of the first group followed by those of the second |
| `Experiences.InsightsMembers` | public/script.js:116-121 | an insight is listed exactly when some record of one of the places is rated `liked` and yields that food at that place |
| `Experiences.ViewDetails` | public/script.js:47-60 | details open exactly for a catalogue name; the place shown is the first catalogue place with that name; the records shown are the place's full log list, empty when it has no entry; the reminders shown are the reminders of those records, in order |
| `Experiences.ExperienceLog.constructor` | public/script.js:24 | the log starts as the stored value, or empty when nothing was stored |
| `Experiences.ExperienceLog.LogExperience` | public/script.js:78-94 | a refused submission changes neither the log nor storage; an accepted one appends the record to its place and, when the storage write succeeds, writes the whole new log to storage; when the write fails, the record stays in memory and storage keeps its old value |
| `Experiences.ExperienceLog.SharedInsights` | public/script.js:116-121 | the nested loop collects exactly the insights specification: per place in order, per record in order, each liked food |
| `Experiences.ExperienceLog.BrowseTrip` | public/script.js:107-124 | the trip browser reports "no places" exactly when the search matches nothing; otherwise it marks the matching places and returns their insights |
| `Experiences.FirstEntryScenario` | public/script.js:86-89 | on an empty log, a valid entry creates a one-record list for its place and leaves other places empty; the same entry without a food is refused |

## Left out

- The Leaflet map, its tiles, markers, popups, `fitBounds` and `setView`. These are calls into a library outside the script. `ZoomRegion` and `BrowseTrip` return the view and the places to mark instead.
- DOM reads and writes, `alert` texts, `innerHTML` rendering and the form reset. This is presentation only. An insight is the pair (food, place name), not the rendered text "food at place".
- `localStorage` and JSON. The stored value is a constructor parameter, already parsed. `None` stands for an absent or falsy value. A write is modelled as the `stored` field taking the whole log; whether the write succeeds is an input of `LogExperience`. The exception a failed write raises, which skips re-rendering and the form reset, is not modelled beyond that.
- `new Date().toLocaleDateString()`. It depends on the clock and the locale, so the date is an opaque input string of the submission.
- The "near me" handler. It relies on asynchronous geolocation and a floating-point distance computed by the map library.
- The reset handler and `addMarkers`. They only redraw markers.
- `Text.Lower`: lower-cases ASCII letters only, not the full Unicode mapping of `toLowerCase`.
- Records read back from storage are assumed well-formed, with string fields. Object keys that collide with JavaScript's built-in object properties (such as `"toString"`) are not modelled either, in the log or in the region table: both are plain maps. For such a key the script's `regions[r]` is truthy and it does not return early, while `ZoomRegion` returns `None`.
- Merging, exporting and importing logs. They are not part of this script.
- `server.js` is not part of this model. It only serves static files.
