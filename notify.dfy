/** What one poll cycle sends to the channel (controller.py,
    `check_bookings`): nothing when the fetch or the filter fails or the
    channel is missing, a single notice when nothing is upcoming, otherwise a
    header and one embed per upcoming booking, in order. */
module Notify {
  import opened Timestamps
  import opened BookingFilter

  const OkStatus := 200

  const NoUpcomingNotice := "\U{1F4ED} No upcoming VATPHIL bookings."
  const Header := "\U{1F4E1} **Upcoming VATPHIL Bookings**:"

  const StartName := "\U{1F552} Start"
  const EndName := "\U{1F554} End"
  const TypeName := "\U{1F4CC} Type"
  const FooterPrefix := "User ID: "

  const TrainingTag := "\U{1F468}\U{200D}\U{1F3EB} Training"
  const EventTag := "\U{1F389} Event"
  const ExamTag := "\U{1F4DD} Exam"
  const StandardTag := "\U{1F6EB} Standard"
  const Separator := ", "

  datatype Field = Field(name: string, value: string)

  /** The rich message for one booking; its colour and the inline layout of
      its fields are not modelled. */
  datatype Embed = Embed(title: string, fields: seq<Field>, footer: string)

  datatype Message = Text(text: string) | Card(embed: Embed)

  /** How a cycle ended. */
  datatype CycleOutcome =
    | FetchFailed(status: int)      // the feed answered with another status than 200
    | ParseFailed(record: Booking)  // a start time of a screened record did not parse
    | ChannelMissing                // the channel id did not resolve
    | Delivered                     // the notice, or the header and the embeds, went out

  // ------------------------------------------------------------ type label

  /** The place of a category in the fixed order Training, Event, Exam. */
  function Rank(tag: string): nat {
    if tag == TrainingTag then 0
    else if tag == EventTag then 1
    else if tag == ExamTag then 2
    else 3
  }

  /** The category tags of a booking, in the order the source appends them:
      one to three tags, and Standard alone exactly when no flag is set. */
  function TypeTags(b: Booking): (tags: seq<string>)
    ensures 1 <= |tags| <= 3
    ensures tags == [StandardTag] <==> !b.training && !b.event && !b.exam
  {
    var flagged := (if b.training then [TrainingTag] else [])
                   + (if b.event then [EventTag] else [])
                   + (if b.exam then [ExamTag] else []);
    if flagged == [] then [StandardTag]
    else assert |flagged[0]| != |StandardTag|; flagged
  }

  /** The tags are the true flags among Training, Event and Exam, each once
      and in that order, or Standard alone when no flag is set; no other
      text is ever a tag. */
  lemma TypeTagsAreSetFlags(b: Booking)
    ensures var tags := TypeTags(b);
      && |tags| >= 1
      && (TrainingTag in tags <==> b.training)
      && (EventTag in tags <==> b.event)
      && (ExamTag in tags <==> b.exam)
      && (StandardTag in tags <==> !b.training && !b.event && !b.exam)
      && (StandardTag in tags ==> tags == [StandardTag])
      && (forall t :: t in tags ==> t in [TrainingTag, EventTag, ExamTag, StandardTag])
      && forall i, j :: 0 <= i < j < |tags| ==> Rank(tags[i]) < Rank(tags[j])
  {
  }

  /** `sep.join(parts)`: every part, with one separator between each two
      neighbours. */
  function Join(parts: seq<string>, sep: string): (r: string)
    ensures parts != [] ==> |r| == TotalLength(parts) + (|parts| - 1) * |sep|
  {
    if parts == [] then []
    else if |parts| == 1 then parts[0]
    else parts[0] + sep + Join(parts[1..], sep)
  }

  /** The summed lengths of some strings. */
  function TotalLength(parts: seq<string>): nat {
    if parts == [] then 0 else |parts[0]| + TotalLength(parts[1..])
  }

  /** The joined text begins with the first part. */
  lemma {:induction false} JoinStartsWithFirst(parts: seq<string>, sep: string)
    requires parts != []
    ensures IsPrefix(parts[0], Join(parts, sep))
  {
    var j := Join(parts, sep);
    if |parts| > 1 {
      assert j == parts[0] + (sep + Join(parts[1..], sep));
    }
    assert j[..|parts[0]|] == parts[0];
  }

  /** The text of the Type field; it begins with the first tag. */
  function Label(b: Booking): (text: string)
    ensures IsPrefix(TypeTags(b)[0], text)
  {
    JoinStartsWithFirst(TypeTags(b), Separator);
    Join(TypeTags(b), Separator)
  }

  /** The label is never empty. */
  lemma LabelNotEmpty(b: Booking)
    ensures |Label(b)| > 0
  {
    TypeTagsAreSetFlags(b);
    JoinStartsWithFirst(TypeTags(b), Separator);
  }

  /** The label reads Standard exactly when no category flag is set. */
  lemma LabelIsStandardIff(b: Booking)
    ensures Label(b) == StandardTag <==> !b.training && !b.event && !b.exam
  {
    var tags := TypeTags(b);
    TypeTagsAreSetFlags(b);
    JoinStartsWithFirst(tags, Separator);
    if b.training || b.event || b.exam {
      assert tags[0] in [TrainingTag, EventTag, ExamTag];
      assert Label(b)[0] == tags[0][0] != StandardTag[0];
    }
  }

  /** Different flag combinations give different labels: the label tells
      exactly which categories are set. */
  lemma LabelDeterminesFlags(a: Booking, b: Booking)
    requires Label(a) == Label(b)
    ensures a.training == b.training && a.event == b.event && a.exam == b.exam
  {
    LabelLengthIs(a);
    LabelLengthIs(b);
  }

  lemma LabelLengthIs(b: Booking)
    ensures |Label(b)| == LabelLength(b.training, b.event, b.exam)
  {
    var tags := TypeTags(b);
    if |tags| == 2 {
      assert Join(tags[1..], Separator) == tags[1];
    } else if |tags| == 3 {
      assert Join(tags[2..], Separator) == tags[2];
      assert tags[1..][1..] == tags[2..];
      assert Join(tags[1..], Separator) == tags[1] + Separator + tags[2];
    }
  }

  /** The length of each of the eight labels; no two are alike. */
  function LabelLength(training: bool, event: bool, exam: bool): nat {
    match (training, event, exam)
    case (false, false, false) => 10
    case (true, false, false) => 12
    case (false, true, false) => 7
    case (false, false, true) => 6
    case (true, true, false) => 21
    case (true, false, true) => 20
    case (false, true, true) => 15
    case (true, true, true) => 29
  }

  /** Training and Event set, Exam not: "Training, Event" with their emoji. */
  lemma LabelExample(b: Booking)
    requires b.training && b.event && !b.exam
    ensures Label(b) == TrainingTag + ", " + EventTag
  {
    var tags := TypeTags(b);
    assert tags == [TrainingTag, EventTag];
    assert Join(tags[1..], Separator) == EventTag;
  }

  /** Builds the label as the source does: a local list that each set flag
      appends to, Standard when it stays empty, then joined with ", ". */
  method BuildTypeLabel(b: Booking) returns (text: string)
    ensures text == Label(b)
  {
    var types: seq<string> := [];
    if b.training {
      types := types + [TrainingTag];
    }
    if b.event {
      types := types + [EventTag];
    }
    if b.exam {
      types := types + [ExamTag];
    }
    if types == [] {
      types := types + [StandardTag];
    }
    assert types == TypeTags(b);
    text := Join(types, Separator);
  }

  // ----------------------------------------------------------------- embed

  /** The embed announcing one booking: three fields, the third being the
      Type, which reads Standard exactly when no category flag is set. */
  function EmbedFor(b: Booking): (e: Embed)
    ensures IsPrefix(b.callsign, e.title) && IsPrefix(FooterPrefix, e.footer)
  {
    Embed(b.callsign + " - " + b.name,
          [Field(StartName, b.timeStart), Field(EndName, b.timeEnd), Field(TypeName, Label(b))],
          FooterPrefix + b.userId)
  }

  /** Builds the embed field by field: title, Start, End, Type, footer. */
  method BuildEmbed(b: Booking) returns (e: Embed)
    ensures e.title == b.callsign + " - " + b.name
    ensures e.fields == [Field(StartName, b.timeStart), Field(EndName, b.timeEnd), Field(TypeName, Label(b))]
    ensures e.footer == FooterPrefix + b.userId
    ensures e == EmbedFor(b)
  {
    e := Embed(b.callsign + " - " + b.name, [], "");
    e := e.(fields := e.fields + [Field(StartName, b.timeStart)]);
    e := e.(fields := e.fields + [Field(EndName, b.timeEnd)]);
    var typeText := BuildTypeLabel(b);
    e := e.(fields := e.fields + [Field(TypeName, typeText)]);
    e := e.(footer := FooterPrefix + b.userId);
  }

  // -------------------------------------------------------------- dispatch

  /** The messages for a list of upcoming bookings: the single notice when
      it is empty, else the header and then the i-th booking's embed at
      position i + 1. */
  predicate IsAnnouncement(outbox: seq<Message>, upcoming: seq<Booking>) {
    if upcoming == [] then outbox == [Text(NoUpcomingNotice)]
    else
      && |outbox| == |upcoming| + 1
      && outbox[0] == Text(Header)
      && forall i :: 0 <= i < |upcoming| ==> outbox[i + 1] == Card(EmbedFor(upcoming[i]))
  }

  /** Sends, one message at a time, what a list of upcoming bookings calls
      for; `outbox` is everything sent, in order. */
  method Announce(upcoming: seq<Booking>) returns (outbox: seq<Message>)
    ensures IsAnnouncement(outbox, upcoming)
    ensures |outbox| == if upcoming == [] then 1 else |upcoming| + 1
  {
    outbox := [];
    if upcoming == [] {
      outbox := outbox + [Text(NoUpcomingNotice)];
      return;
    }
    outbox := outbox + [Text(Header)];
    for i := 0 to |upcoming|
      invariant |outbox| == i + 1 && outbox[0] == Text(Header)
      invariant forall k :: 0 <= k < i ==> outbox[k + 1] == Card(EmbedFor(upcoming[k]))
    {
      var e := BuildEmbed(upcoming[i]);
      outbox := outbox + [Card(e)];
    }
  }

  /** One poll cycle, from the fetch status, the decoded records, whether
      the channel resolved and the current moment (naive UTC). */
  method RunCycle(status: int, data: seq<Booking>, channelFound: bool, now: DateTime)
    returns (outcome: CycleOutcome, outbox: seq<Message>)
    ensures status != OkStatus ==> outcome == FetchFailed(status)
    ensures status == OkStatus && FilterUpcoming(data, now).Err? ==>
              outcome == ParseFailed(FilterUpcoming(data, now).error)
    ensures status == OkStatus && FilterUpcoming(data, now).Ok? && !channelFound ==>
              outcome == ChannelMissing
    ensures outcome == Delivered <==> status == OkStatus && FilterUpcoming(data, now).Ok? && channelFound
    ensures outcome != Delivered ==> outbox == []
    ensures outcome == Delivered ==> IsAnnouncement(outbox, FilterUpcoming(data, now).value)
  {
    if status != OkStatus {
      return FetchFailed(status), [];
    }
    var filtered := FilterUpcoming(data, now);
    if filtered.Err? {
      return ParseFailed(filtered.error), [];
    }
    if !channelFound {
      return ChannelMissing, [];
    }
    outbox := Announce(filtered.value);
    outcome := Delivered;
  }

  // ---------------------------------------------------------------- lemmas

  /** Every embed sent announces a qualifying booking of the feed, and every
      qualifying booking of the feed is announced. */
  lemma AnnouncedExactlyQualifying(data: seq<Booking>, now: DateTime, outbox: seq<Message>)
    requires FilterUpcoming(data, now).Ok?
    requires IsAnnouncement(outbox, FilterUpcoming(data, now).value)
    ensures forall m :: m in outbox && m.Card? ==>
              exists b :: b in data && Qualifies(b, now) && m == Card(EmbedFor(b))
    ensures forall b :: b in data && Qualifies(b, now) ==> Card(EmbedFor(b)) in outbox
  {
    var upcoming := FilterUpcoming(data, now).value;
    AnnouncementCards(outbox, upcoming);
    var idx := FilterIsOrderedSelection(data, now);
    forall b | b in upcoming ensures b in data {
      var k :| 0 <= k < |upcoming| && upcoming[k] == b;
      assert b == data[idx[k]];
    }
  }

  /** The embeds of an announcement are those of the upcoming bookings. */
  lemma AnnouncementCards(outbox: seq<Message>, upcoming: seq<Booking>)
    requires IsAnnouncement(outbox, upcoming)
    ensures forall m :: m in outbox && m.Card? ==> exists b :: b in upcoming && m == Card(EmbedFor(b))
    ensures forall b :: b in upcoming ==> Card(EmbedFor(b)) in outbox
  {
    forall m | m in outbox && m.Card? ensures exists b :: b in upcoming && m == Card(EmbedFor(b)) {
      var j :| 0 <= j < |outbox| && outbox[j] == m;
      assert j > 0;
      assert m == Card(EmbedFor(upcoming[j - 1]));
    }
    forall b | b in upcoming ensures Card(EmbedFor(b)) in outbox {
      var k :| 0 <= k < |upcoming| && upcoming[k] == b;
      assert outbox[k + 1] == Card(EmbedFor(b));
    }
  }

  /** The header, when sent, comes first and only once; the notice is sent
      only alone. */
  lemma HeaderFirstAndOnce(outbox: seq<Message>, upcoming: seq<Booking>)
    requires IsAnnouncement(outbox, upcoming)
    ensures Text(Header) in outbox <==> upcoming != []
    ensures forall j :: 0 < j < |outbox| ==> outbox[j].Card?
    ensures Text(NoUpcomingNotice) in outbox <==> outbox == [Text(NoUpcomingNotice)]
  {
    if upcoming != [] {
      forall j | 0 < j < |outbox| ensures outbox[j].Card? {
        assert outbox[j] == Card(EmbedFor(upcoming[j - 1]));
      }
    }
  }

  // -------------------------------------------------------------- examples

  /** The start time of the example below parses to 13:00 on 1 June 2025. */
  lemma ExampleStartParses()
    ensures Parse("2025-06-01 13:00:00") == Some(DateTime(2025, 6, 1, 13, 0, 0, 0))
  {
    var t := DateTime(2025, 6, 1, 13, 0, 0, 0);
    ParseFormat(t);
    assert PadDigits(2025, 4) == "2025";
    assert PadDigits(6, 2) == "06" && PadDigits(1, 2) == "01" && PadDigits(13, 2) == "13";
    assert PadDigits(0, 2) == "00";
    assert Format(t) == "2025-06-01 13:00:00";
  }

  /** A plain RPLL_APP booking starting an hour after `ExampleNow`. */
  const ExampleBooking := Booking("RPLL_APP", "Approach", "1234567", "2025-06-01 13:00:00",
                                  "2025-06-01 15:00:00", false, false, false, false)
  const ExampleNow := DateTime(2025, 6, 1, 12, 0, 0, 0)

  /** The example booking is of interest and starts after `ExampleNow`. */
  lemma ExampleBookingQualifies()
    ensures Qualifies(ExampleBooking, ExampleNow)
  {
    ExampleOfInterest();
    ExampleStartsAfter();
  }

  /** Its callsign is one of the positions of interest. */
  lemma ExampleOfInterest()
    ensures IsOfInterest(ExampleBooking.callsign)
  {
    assert Positions[2] == ExampleBooking.callsign;
    assert IsPrefix(Positions[2], ExampleBooking.callsign);
    assert IsSubstring(Positions[2], ExampleBooking.callsign);
  }

  /** It starts an hour after `ExampleNow`. */
  lemma ExampleStartsAfter()
    ensures StartsAfter(ExampleBooking, ExampleNow)
  {
    ExampleStartParses();
    assert Before(ExampleNow, DateTime(2025, 6, 1, 13, 0, 0, 0));
  }

  /** The example booking is kept. */
  lemma ExampleBookingKept()
    ensures FilterUpcoming([ExampleBooking], ExampleNow) == Ok([ExampleBooking])
  {
    var b := ExampleBooking;
    ExampleBookingQualifies();
    assert [b][1..] == [];
    assert FilterUpcoming([], ExampleNow) == Ok([]);
    assert [b] + [] == [b];
  }

  /** A feed holding only the example booking: the header and one embed
      labelled Standard. */
  method ExampleOneBooking() {
    ExampleBookingKept();
    var outcome, outbox := RunCycle(200, [ExampleBooking], true, ExampleNow);
    assert outcome == Delivered && |outbox| == 2;
    assert outbox[1].embed.fields[2].value == StandardTag;
  }

  /** An empty feed gives the notice alone; status 503 gives nothing. */
  method ExampleEmptyAndFailed(now: DateTime) {
    var outcome, outbox := RunCycle(200, [], true, now);
    assert outcome == Delivered && outbox == [Text(NoUpcomingNotice)];
    outcome, outbox := RunCycle(503, [], true, now);
    assert outcome == FetchFailed(503) && outbox == [];
  }
}
