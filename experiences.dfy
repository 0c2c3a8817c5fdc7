/** The experience log: for every place name, the records the user logged
    there, oldest first. Pure definitions of what the log-form submission, the
    reminders and the trip insights compute, the lemmas relating them, and the
    `ExperienceLog` class that holds the live map and updates it in place. */
module Experiences {
  import opened Seqs
  import opened Places

  /** One logged experience. `date` is the locale date string taken when the
      record was logged; the model treats it as an opaque input. */
  datatype Record = Record(food: string, rating: string, notes: string, date: string)

  /** The log: place name to the records logged there, in insertion order. */
  type Log = map<string, seq<Record>>

  const Liked: string := "liked"
  const Disliked: string := "disliked"

  /** The records logged at `place`; a place without an entry reads as none. */
  function RecordsFor(m: Log, place: string): (r: seq<Record>)
    ensures place !in m ==> r == []
    ensures place in m ==> r == m[place]
  {
    if place in m then m[place] else []
  }

  // ---------------------------------------------------------------------------
  // Logging an experience

  /** What the log form submits. `rating` is `None` when no rating button is checked. */
  datatype Submission = Submission(place: string, food: string, rating: Option<string>, notes: string, date: string)

  /** The form is accepted only with a food chosen and a non-empty rating checked. */
  predicate Accepted(s: Submission)
  {
    s.food != "" && s.rating.Some? && s.rating.value != ""
  }

  function RecordOf(s: Submission): Record
    requires s.rating.Some?
  {
    Record(s.food, s.rating.value, s.notes, s.date)
  }

  /** `m` with `rec` added after the records of `place`, the list created if absent. */
  function Append(m: Log, place: string, rec: Record): (r: Log)
    ensures r.Keys == m.Keys + {place}
    ensures |RecordsFor(r, place)| == |RecordsFor(m, place)| + 1
    ensures RecordsFor(r, place)[|RecordsFor(m, place)|] == rec
    ensures RecordsFor(r, place)[..|RecordsFor(m, place)|] == RecordsFor(m, place)
    ensures forall k :: k != place ==> RecordsFor(r, k) == RecordsFor(m, k)
  {
    var before := RecordsFor(m, place);
    assert (before + [rec])[..|before|] == before;
    m[place := before + [rec]]
  }

  /** The log after one submission of the form: `None` (the form is refused
      and nothing changes) unless the submission is accepted. */
  function Submit(m: Log, s: Submission): (r: Option<Log>)
    ensures r.None? <==> !Accepted(s)
    ensures r.Some? ==> RecordsFor(r.value, s.place) == RecordsFor(m, s.place) + [RecordOf(s)]
    ensures r.Some? ==> forall k :: k != s.place ==> RecordsFor(r.value, k) == RecordsFor(m, k)
  {
    if !Accepted(s) then None
    else
      var r := Append(m, s.place, RecordOf(s));
      assert RecordsFor(r, s.place) == RecordsFor(m, s.place) + [RecordOf(s)];
      Some(r)
  }

  /** The log after a session of submissions, refused ones leaving it as it was. */
  function Session(m: Log, subs: seq<Submission>): Log
    decreases |subs|
  {
    if subs == [] then m
    else
      var next := match Submit(m, subs[0]) case Some(m') => m' case None => m;
      Session(next, subs[1..])
  }

  /** The records the accepted submissions of `subs` log at `place`, in order. */
  function LoggedAt(subs: seq<Submission>, place: string): seq<Record>
  {
    if subs == [] then []
    else (if Accepted(subs[0]) && subs[0].place == place then [RecordOf(subs[0])] else [])
         + LoggedAt(subs[1..], place)
  }

  /** The log is append-only: after any session, every place holds its earlier
      records unchanged, followed by exactly the records accepted for it. */
  lemma {:induction false} SessionAppends(m: Log, subs: seq<Submission>, place: string)
    ensures RecordsFor(Session(m, subs), place) == RecordsFor(m, place) + LoggedAt(subs, place)
    decreases |subs|
  {
    if subs != [] {
      var next := match Submit(m, subs[0]) case Some(m') => m' case None => m;
      SessionAppends(next, subs[1..], place);
      var head := if Accepted(subs[0]) && subs[0].place == place then [RecordOf(subs[0])] else [];
      assert RecordsFor(next, place) == RecordsFor(m, place) + head;
      assert RecordsFor(m, place) + head + LoggedAt(subs[1..], place)
          == RecordsFor(m, place) + (head + LoggedAt(subs[1..], place));
    }
  }

  // ---------------------------------------------------------------------------
  // Reminders

  /** A record is worth a reminder when it was disliked or carries notes. */
  predicate IsReminder(e: Record)
  {
    e.rating == Disliked || e.notes != ""
  }

  /** The reminders among `rs`: the disliked or annotated records, in order. */
  function Reminders(rs: seq<Record>): (r: seq<Record>)
    ensures forall k :: 0 <= k < |r| ==> r[k] in rs && IsReminder(r[k])
    ensures forall k :: 0 <= k < |rs| && IsReminder(rs[k]) ==> rs[k] in r
    ensures IsSubsequence(r, rs)
    ensures Embeds(r, rs, Positions(IsReminder, rs))
  {
    FilterIsSubsequence(IsReminder, rs);
    FilterPicksPositions(IsReminder, rs);
    Filter(IsReminder, rs)
  }

  /** Logging a record at a place adds it at the end of that place's reminders
      exactly when it is worth a reminder. */
  lemma RemindersAfterAppend(m: Log, place: string, rec: Record)
    ensures Reminders(RecordsFor(Append(m, place, rec), place))
         == Reminders(RecordsFor(m, place)) + (if IsReminder(rec) then [rec] else [])
  {
    var rs := RecordsFor(m, place);
    assert RecordsFor(Append(m, place, rec), place) == rs + [rec];
    FilterConcat(IsReminder, rs, [rec]);
  }

  // ---------------------------------------------------------------------------
  // Trip insights

  /** A liked food, and the name of the place it was liked at. */
  datatype Insight = Insight(food: string, place: string)

  /** One insight per record of `rs` rated liked, in record order. */
  function LikedAt(rs: seq<Record>, place: string): seq<Insight>
  {
    if rs == [] then []
    else (if rs[0].rating == Liked then [Insight(rs[0].food, place)] else []) + LikedAt(rs[1..], place)
  }

  /** The insights for the places `ps`: place by place, and within each place
      record by record, every liked record. */
  function Insights(m: Log, ps: seq<Place>): seq<Insight>
  {
    if ps == [] then []
    else LikedAt(RecordsFor(m, ps[0].name), ps[0].name) + Insights(m, ps[1..])
  }

  lemma {:induction false} LikedAtConcat(a: seq<Record>, b: seq<Record>, place: string)
    ensures LikedAt(a + b, place) == LikedAt(a, place) + LikedAt(b, place)
  {
    if a == [] {
      assert a + b == b;
    } else {
      assert (a + b)[1..] == a[1..] + b;
      LikedAtConcat(a[1..], b, place);
    }
  }

  /** The insights of consecutive groups of places are those of the first
      group followed by those of the second. */
  lemma {:induction false} InsightsConcat(m: Log, a: seq<Place>, b: seq<Place>)
    ensures Insights(m, a + b) == Insights(m, a) + Insights(m, b)
  {
    if a == [] {
      assert a + b == b;
    } else {
      assert (a + b)[1..] == a[1..] + b;
      InsightsConcat(m, a[1..], b);
    }
  }

  /** Record `j` of place `k` is a liked record and `x` is the insight it yields. */
  ghost predicate YieldsInsight(m: Log, ps: seq<Place>, k: int, j: int, x: Insight)
  {
    && 0 <= k < |ps|
    && 0 <= j < |RecordsFor(m, ps[k].name)|
    && RecordsFor(m, ps[k].name)[j].rating == Liked
    && x == Insight(RecordsFor(m, ps[k].name)[j].food, ps[k].name)
  }

  lemma {:induction false} LikedAtMembers(rs: seq<Record>, place: string, x: Insight)
    ensures x in LikedAt(rs, place)
        <==> x.place == place && exists j :: 0 <= j < |rs| && rs[j].rating == Liked && rs[j].food == x.food
  {
    if rs != [] {
      LikedAtConcat([rs[0]], rs[1..], place);
      LikedAtMembers(rs[1..], place, x);
      assert forall j :: 0 < j < |rs| ==> rs[j] == rs[1..][j - 1];
      if x.place == place && x !in LikedAt(rs[1..], place)
         && exists j :: 0 <= j < |rs| && rs[j].rating == Liked && rs[j].food == x.food {
        var j :| 0 <= j < |rs| && rs[j].rating == Liked && rs[j].food == x.food;
        assert j == 0;
      }
    }
  }

  /** Nothing but liked records of the given places appears among the
      insights, and every liked record of those places does. */
  lemma {:induction false} InsightsMembers(m: Log, ps: seq<Place>, x: Insight)
    ensures x in Insights(m, ps) <==> exists k, j :: YieldsInsight(m, ps, k, j, x)
  {
    if ps != [] {
      var rs := RecordsFor(m, ps[0].name);
      InsightsMembers(m, ps[1..], x);
      LikedAtMembers(rs, ps[0].name, x);
      if x in LikedAt(rs, ps[0].name) {
        var j :| 0 <= j < |rs| && rs[j].rating == Liked && rs[j].food == x.food;
        assert YieldsInsight(m, ps, 0, j, x);
      }
      if x in Insights(m, ps[1..]) {
        var k, j :| YieldsInsight(m, ps[1..], k, j, x);
        assert YieldsInsight(m, ps, k + 1, j, x);
      }
      if exists k, j :: YieldsInsight(m, ps, k, j, x) {
        var k, j :| YieldsInsight(m, ps, k, j, x);
        if k > 0 {
          assert YieldsInsight(m, ps[1..], k - 1, j, x);
        }
      }
    }
  }

  // ---------------------------------------------------------------------------
  // Details view

  /** What the details view shows for a place: the place (its foods), its
      records and its reminders. */
  datatype Details = Details(place: Place, records: seq<Record>, reminders: seq<Record>)

  /** The details of the place called `name`, or `None` when the catalogue has
      no such place and the view is not opened. */
  function ViewDetails(m: Log, ps: seq<Place>, name: string): (r: Option<Details>)
    ensures r.None? <==> forall i :: 0 <= i < |ps| ==> ps[i].name != name
    ensures r.Some? ==> r.value.place in ps && r.value.place.name == name
    ensures r.Some? && name !in m ==> r.value.records == [] && r.value.reminders == []
    ensures r.Some? ==> forall e :: e in r.value.reminders <==> e in RecordsFor(m, name) && IsReminder(e)
    ensures r.Some? ==> r.value.place == Find(ps, name).value
    ensures r.Some? ==> exists i :: FirstNamed(ps, name, i) && ps[i] == r.value.place
    ensures r.Some? ==> r.value.records == RecordsFor(m, name)
    ensures r.Some? ==> r.value.reminders == Reminders(r.value.records)
  {
    match Find(ps, name)
    case None => None
    case Some(p) =>
      FindReturnsFirst(ps, name);
      var rs := RecordsFor(m, name);
      Some(Details(p, rs, Reminders(rs)))
  }

  // ---------------------------------------------------------------------------
  // The live log

  /** The outcome of browsing a trip: no place matched, or the matching places
      to mark and the liked foods logged at them. */
  datatype TripOutcome = NoPlacesFound | Trip(markers: seq<Place>, insights: seq<Insight>)

  class ExperienceLog {
    /** The in-memory log. */
    var experiences: Log
    /** The value last written under the browser-storage key `experiences`;
        `None` when nothing has been written. */
    var stored: Option<Log>

    /** Start from the value read back from storage, or from an empty log
        when nothing (or a falsy value) was stored. */
    constructor (saved: Option<Log>)
      ensures experiences == (match saved case Some(m) => m case None => map[])
      ensures stored == saved
    {
      experiences := match saved case Some(m) => m case None => map[];
      stored := saved;
    }

    /** The log-form handler: refuse the submission without a food or a
        rating; otherwise add the record at the end of the place's list,
        creating the list if absent, and write the whole log through to storage.
        `writeOk` is whether the storage write succeeds; when it throws (storage
        full, say), the record stays in memory and storage keeps its old value. */
    method LogExperience(s: Submission, writeOk: bool) returns (ok: bool)
      modifies this
      ensures ok == Accepted(s)
      ensures !ok ==> experiences == old(experiences) && stored == old(stored)
      ensures ok ==> experiences == Append(old(experiences), s.place, RecordOf(s))
      ensures ok && writeOk ==> stored == Some(experiences)
      ensures ok && !writeOk ==> stored == old(stored)
    {
      if s.food == "" || s.rating.None? || s.rating.value == "" {
        return false;
      }
      if s.place !in experiences {
        experiences := experiences[s.place := []];
      }
      experiences := experiences[s.place := experiences[s.place] + [RecordOf(s)]];
      if writeOk {
        stored := Some(experiences);
      }
      ok := true;
    }

    /** The insight loop of the trip browser: for each place in order, each of
        its records in order, one insight per liked record. */
    method SharedInsights(filtered: seq<Place>) returns (insights: seq<Insight>)
      ensures insights == Insights(experiences, filtered)
    {
      insights := [];
      var i := 0;
      while i < |filtered|
        invariant 0 <= i <= |filtered|
        invariant insights == Insights(experiences, filtered[..i])
      {
        var p := filtered[i];
        var exps := RecordsFor(experiences, p.name);
        var j := 0;
        while j < |exps|
          invariant 0 <= j <= |exps|
          invariant insights == Insights(experiences, filtered[..i]) + LikedAt(exps[..j], p.name)
        {
          if exps[j].rating == Liked {
            insights := insights + [Insight(exps[j].food, p.name)];
          }
          LikedAtConcat(exps[..j], [exps[j]], p.name);
          assert exps[..j + 1] == exps[..j] + [exps[j]];
          j := j + 1;
        }
        assert exps[..j] == exps;
        assert Insights(experiences, [p]) == LikedAt(exps, p.name) + Insights(experiences, []);
        InsightsConcat(experiences, filtered[..i], [p]);
        assert filtered[..i + 1] == filtered[..i] + [p];
        i := i + 1;
      }
      assert filtered[..i] == filtered;
    }

    /** The trip browser: search the catalogue; with no match, report that and
        stop; otherwise mark the matches and collect their liked foods. */
    method BrowseTrip(query: string) returns (outcome: TripOutcome)
      ensures outcome.NoPlacesFound? <==> TripFilter(PlaceList, query) == []
      ensures outcome.Trip? ==> outcome.markers == TripFilter(PlaceList, query)
      ensures outcome.Trip? ==> outcome.insights == Insights(experiences, outcome.markers)
    {
      var filtered := TripFilter(PlaceList, query);
      if |filtered| == 0 {
        return NoPlacesFound;
      }
      var insights := SharedInsights(filtered);
      outcome := Trip(filtered, insights);
    }
  }

  /** A first entry: logging a liked latte at an empty log creates that
      place's list with the one record and leaves other places empty; the same
      submission without a food is refused. */
  lemma FirstEntryScenario()
    ensures var s := Submission("Ichiran Ramen, Tokyo", "Gyoza", Some(Liked), "", "1/1/2024");
            && Submit(map[], s) == Some(map["Ichiran Ramen, Tokyo" := [Record("Gyoza", Liked, "", "1/1/2024")]])
            && RecordsFor(Submit(map[], s).value, "Starbucks, New York") == []
            && Submit(map[], s.(food := "")) == None
  {
  }
}
