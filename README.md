# VATPHIL booking notifier — model of one poll cycle

The bot polls the VATPHIL bookings feed every hour and posts the upcoming
controller bookings for Philippine positions to a Discord channel. This
project models the decision part of one poll cycle of `check_bookings` in
`controller.py`:

- **Filter** (`BookingFilter`): a record is kept when it is not deleted,
  its callsign contains one of the 21 positions of interest as a substring,
  and its `time_start`, read in the layout `YYYY-MM-DD HH:MM:SS`, is
  strictly later than the current moment. The three conditions are tried
  left to right and stop at the first false one. So a start time that does
  not parse aborts the cycle only for a record that is not deleted and has a
  matching callsign.
- **Timestamps** (`Timestamps`): naive date-times, their calendar range, the
  fixed-width layout (parse and format) and the field-by-field ordering
  that datetime comparison uses. The current moment carries microseconds.
  A parsed start time has none.
- **Notification** (`Notify`): the type label (the set flags among Training,
  Event and Exam, in that order, joined by `", "`, or Standard), the embed
  for one booking, the send loop, and the whole cycle. The cycle sends
  nothing on a status other than 200, on a parse failure or on a missing
  channel. It sends a single "No upcoming" notice when nothing qualifies.
  Otherwise it sends a header and then one embed per kept booking, in feed
  order.

Inputs the source obtains from the outside world are parameters here:
- the HTTP status and the decoded list of records;
- whether the channel id resolved;
- the current UTC moment.

Each `channel.send` becomes an append to `outbox`, the sequence of messages
sent. How the cycle ended is returned as a `CycleOutcome` value. The source
reports that outcome by printing, or by letting the parse error escape.

The positions of interest match anywhere in the callsign, not only as a
prefix, so `XRPLL_APP` is of interest as well.

The source does not catch the `ValueError` that `strptime` raises on a start
time it cannot read: the exception ends the cycle before any message is
sent. The model returns `ParseFailed` with the first offending record and an
empty outbox.

## Model

| member | source | states |
|---|---|---|
| `Timestamps.Parse` | controller.py:45 | A start time parses exactly when it has the fixed layout and its fields form a real calendar date-time (year 1 to 9999, leap years, second below 60); the result has microsecond 0 |
| `Timestamps.Before` | controller.py:45 | The `>` against the current moment: on valid date-times, one is before another exactly when its count of microseconds is smaller, so the field-by-field comparison orders moments as time does |
| `Timestamps.ParseFormat` | controller.py:45 | Every valid whole-second date-time, written in the layout, parses back to itself |
| `Timestamps.FormatParse` | controller.py:45 | A string that parses is exactly the layout of its result, so each moment has one accepted spelling |
| `Timestamps.BeforeIsStrictTotalOrder` | controller.py:45 | The `>` used against now is a strict total order: irreflexive, asymmetric, transitive, total on distinct moments |
| `Timestamps.DigitsValuePad` | controller.py:45 | Reading back a zero-padded number of the field width gives the number |
| `Timestamps.PadDigitsValue` | controller.py:45 | Re-padding the value of a digit field to its width gives the field back |
| `BookingFilter.IsSubstring` | controller.py:44 | `pos in callsign`: a contained position is no longer than the callsign, and one of the same length is the callsign itself |
| `BookingFilter.IsSubstringIff` | controller.py:44 | The containment scan used for `pos in callsign` holds exactly when the position occurs at some offset of the callsign |
| `BookingFilter.SubstringOfSurrounding` | controller.py:44 | A position is contained in any callsign built around it |
| `BookingFilter.SubstringFirstChar` | controller.py:44 | A contained position begins with a character that occurs in the callsign |
| `BookingFilter.PositionExamples` | controller.py:14-19 | `RPLL_CTR_1` is of interest through `RPLL_CTR`; `EGLL_APP` matches none of the 21 positions |
| `BookingFilter.Qualifies` | controller.py:43-45 | The condition of the comprehension: a qualifying record is never deleted, and evaluating its conditions raises no parse error |
| `BookingFilter.Evaluates` | controller.py:43-45 | The `and` chain stops at the first false condition: the start time of a deleted record, or of one whose callsign holds no position of interest, is never parsed, so it cannot fail the cycle |
| `BookingFilter.FilterUpcoming` | controller.py:41-46 | The filter succeeds exactly when every record evaluates its conditions without a parse error; on success it keeps only qualifying records and keeps every qualifying record; on failure it reports a record of the feed that is not deleted, is of interest and whose start does not parse |
| `BookingFilter.FilterIsOrderedSelection` | controller.py:41-46 | The kept list is the sub-sequence of the feed at strictly increasing positions that are exactly the qualifying ones: order kept, each qualifying record once |
| `BookingFilter.SelectionStep` | controller.py:41-46 | Putting one record in front of the feed extends the selection by that record exactly when it qualifies |
| `BookingFilter.ParseErrorIsFirst` | controller.py:43-45 | The record reported on failure is the first one, in feed order, whose conditions cannot be evaluated; all records before it evaluate |
| `BookingFilter.FilterIdempotent` | controller.py:41-46 | Filtering the kept list again keeps all of it |
| `BookingFilter.DeletedNeverKept` | controller.py:43 | A deleted record is never kept, whatever its other fields |
| `BookingFilter.ListedPositionKept` | controller.py:14-19 | A record whose callsign equals or extends a listed position, not deleted, starting after now, is kept |
| `BookingFilter.UnlistedCallsignExcluded` | controller.py:44 | A record whose callsign contains no listed position is never kept |
| `BookingFilter.StartNotLaterExcluded` | controller.py:45 | A record starting at the current moment or earlier is never kept |
| `Notify.TypeTags` | controller.py:66-70 | The `types` list holds one to three tags, and is Standard alone exactly when no category flag is set |
| `Notify.TypeTagsAreSetFlags` | controller.py:66-70 | The tags are exactly the set flags among Training, Event and Exam, each once and in that order, or Standard alone exactly when no flag is set; no other text is ever a tag |
| `Notify.Join` | controller.py:72 | `", ".join`: the text is as long as all the parts together plus one separator between each two neighbours |
| `Notify.JoinStartsWithFirst` | controller.py:72 | The joined label begins with its first tag |
| `Notify.Label` | controller.py:66-72 | The Type field begins with the first tag of the booking: the first set flag among Training, Event, Exam, or Standard |
| `Notify.LabelNotEmpty` | controller.py:66-72 | The Type field is never empty |
| `Notify.LabelIsStandardIff` | controller.py:66-72 | The Type field reads Standard if and only if no category flag is set |
| `Notify.LabelDeterminesFlags` | controller.py:66-72 | Two bookings with the same Type field have the same three flags |
| `Notify.LabelExample` | controller.py:66-72 | Training and Event set, Exam not, gives the Training tag, `", "`, the Event tag |
| `Notify.BuildTypeLabel` | controller.py:66-72 | Appending tags to a local list and joining it gives the label of the booking |
| `Notify.EmbedFor` | controller.py:59-73 | The embed of one booking: its title begins with the callsign and its footer with `User ID: ` |
| `Notify.BuildEmbed` | controller.py:59-73 | The embed has title `callsign - name`, fields Start = `time_start`, End = `time_end` and Type = the label, in that order, and footer `User ID: ` followed by the user id |
| `Notify.Announce` | controller.py:53-74 | An empty list sends exactly the "No upcoming" notice; otherwise exactly one message more than there are upcoming bookings, the header first and the embed of the i-th booking at position i + 1 |
| `Notify.RunCycle` | controller.py:31-74 | A status other than 200, a parse failure, or a missing channel ends the cycle with that outcome and no message; otherwise the messages are the announcement of the filtered list |
| `Notify.HeaderFirstAndOnce` | controller.py:53-74 | The header is sent exactly when something is upcoming, and every later message is an embed; the notice is only ever sent alone |
| `Notify.AnnouncementCards` | controller.py:57-74 | Every embed sent is the embed of an upcoming booking, and every upcoming booking has its embed sent |
| `Notify.ExampleBookingKept` | controller.py:41-46 | A feed holding one plain, not deleted `RPLL_APP` booking an hour after now is kept whole; the verified client `ExampleOneBooking` then gets the header and one embed labelled Standard |
| `Notify.AnnouncedExactlyQualifying` | controller.py:41-74 | Every embed sent announces a qualifying record of the feed, and every qualifying record of the feed is announced |

## Left out

- Discord session handling (`on_ready`, `bot.run`, intents) and the channel lookup: the lookup result is the `channelFound` input.
- Delivery failures: every `channel.send` is modelled as succeeding. In the source an exception from a send ends the loop and the rest is not sent.
- The HTTP request and JSON decoding: the status and the decoded records are inputs. A body that is not a JSON list, and records with missing keys or fields of other types, are not modelled.
- The hourly `tasks.loop` schedule, what the task library does after an uncaught exception, and overlapping cycles: timing and concurrency, not cycle logic.
- Reading `DISCORD_CHANNEL_ID` and `DISCORD_TOKEN` from the environment: process configuration.
- The clock: the current moment is one parameter for the whole cycle. The source reads `datetime.utcnow()` again for each record, so later records may be compared with a slightly later moment.
- `Timestamps.Parse`: accepts only the fixed-width layout with ASCII digits and a single space between date and time. `strptime` also accepts fields without leading zeros, a space-padded day (`" 1"`), any run of whitespace (a tab, several spaces) where the format has its space, and other Unicode decimal digits.
- The console messages printed on failure: the `CycleOutcome` value stands in for them.
- The embed colour and the `inline` flags of its fields: presentation only. The emoji prefixes are kept as constant strings.
- `user_id` is taken as its rendered text; its conversion to text by the f-string is not modelled.
