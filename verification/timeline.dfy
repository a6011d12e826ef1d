/** The list view of `src/components/Timeline/Timeline.jsx`: the sort order,
    which message is marked as playing, the timestamp sort, the per-card
    labels and the empty state. */
module Timeline {

  import opened Common
  import opened Text
  import AudioUtils
  import AudioPlayer
  import VoiceMessages

  type Message = VoiceMessages.Message

  datatype SortOrder = Newest | Oldest

  datatype TimelineState = TimelineState(sortOrder: SortOrder, currentlyPlaying: Option<string>)

  const InitialTimeline: TimelineState := TimelineState(Newest, None)

  /** A message's place under the comparator: with `'newest'` the comparator
      is `b.timestamp - a.timestamp`, so larger timestamps come first; with
      `'oldest'` it is `a.timestamp - b.timestamp`. Lower ranks come first. */
  function Rank(order: SortOrder, m: Message): int {
    if order == Newest then -m.timestamp else m.timestamp
  }

  predicate Sorted(order: SortOrder, s: seq<Message>) {
    forall i, j :: 0 <= i < j < |s| ==> Rank(order, s[i]) <= Rank(order, s[j])
  }

  /** Puts `x` before the first element that does not strictly precede it. */
  function Insert(order: SortOrder, x: Message, s: seq<Message>): (r: seq<Message>)
    ensures multiset(r) == multiset(s) + multiset{x}
    ensures |r| == |s| + 1
    ensures forall m :: m in r <==> m == x || m in s
  {
    if s == [] then [x]
    else if Rank(order, s[0]) < Rank(order, x) then
      assert s == [s[0]] + s[1..];
      [s[0]] + Insert(order, x, s[1..])
    else [x] + s
  }

  /** Every rank in `s` is at least `v`. */
  predicate RanksFrom(order: SortOrder, v: int, s: seq<Message>) {
    forall m :: m in s ==> v <= Rank(order, m)
  }

  /** The head of a sorted sequence bounds the ranks of its tail. */
  lemma HeadBoundsTail(order: SortOrder, s: seq<Message>)
    requires Sorted(order, s) && s != []
    ensures RanksFrom(order, Rank(order, s[0]), s[1..])
  {
    forall m | m in s[1..]
      ensures Rank(order, s[0]) <= Rank(order, m)
    {
      var k :| 0 <= k < |s[1..]| && s[1..][k] == m;
      assert s[k + 1] == m;
    }
  }

  lemma SortedCons(order: SortOrder, a: Message, tail: seq<Message>)
    requires Sorted(order, tail) && RanksFrom(order, Rank(order, a), tail)
    ensures Sorted(order, [a] + tail)
  {
    var r := [a] + tail;
    forall i, j | 0 <= i < j < |r|
      ensures Rank(order, r[i]) <= Rank(order, r[j])
    {
      assert r[j] == tail[j - 1];
      if i > 0 {
        assert r[i] == tail[i - 1];
      }
    }
  }

  lemma {:induction false} InsertSorted(order: SortOrder, x: Message, s: seq<Message>)
    requires Sorted(order, s)
    ensures Sorted(order, Insert(order, x, s))
  {
    if s == [] {
    } else if Rank(order, s[0]) < Rank(order, x) {
      var tail := Insert(order, x, s[1..]);
      assert Sorted(order, s[1..]);
      InsertSorted(order, x, s[1..]);
      HeadBoundsTail(order, s);
      assert RanksFrom(order, Rank(order, s[0]), tail);
      SortedCons(order, s[0], tail);
    } else {
      HeadBoundsTail(order, s);
      assert s == [s[0]] + s[1..];
      assert RanksFrom(order, Rank(order, x), s);
      SortedCons(order, x, s);
    }
  }

  /** The sort behind `sortedMessages`. `Array.prototype.sort` is stable, so
      equal timestamps keep their relative order; insertion from the back
      keeps that property. */
  function SortMessages(order: SortOrder, messages: seq<Message>): (r: seq<Message>)
    ensures multiset(r) == multiset(messages)
    ensures |r| == |messages|
  {
    if messages == [] then []
    else
      assert messages == [messages[0]] + messages[1..];
      Insert(order, messages[0], SortMessages(order, messages[1..]))
  }

  /** The result is ordered: non-increasing timestamps for `'newest'`,
      non-decreasing for `'oldest'`. */
  lemma {:induction false} SortMessagesSorted(order: SortOrder, messages: seq<Message>)
    ensures Sorted(order, SortMessages(order, messages))
    ensures order == Newest ==> forall i, j :: 0 <= i < j < |messages| ==>
              SortMessages(order, messages)[i].timestamp >= SortMessages(order, messages)[j].timestamp
    ensures order == Oldest ==> forall i, j :: 0 <= i < j < |messages| ==>
              SortMessages(order, messages)[i].timestamp <= SortMessages(order, messages)[j].timestamp
  {
    if messages != [] {
      SortMessagesSorted(order, messages[1..]);
      InsertSorted(order, messages[0], SortMessages(order, messages[1..]));
    }
    var r := SortMessages(order, messages);
    assert forall i, j :: 0 <= i < j < |r| ==> Rank(order, r[i]) <= Rank(order, r[j]);
  }

  /** The messages with timestamp `t`, in order. */
  function WithTimestamp(s: seq<Message>, t: int): seq<Message> {
    if s == [] then []
    else (if s[0].timestamp == t then [s[0]] else []) + WithTimestamp(s[1..], t)
  }

  lemma WithTimestampCons(a: Message, s: seq<Message>, t: int)
    ensures WithTimestamp([a] + s, t) == (if a.timestamp == t then [a] else []) + WithTimestamp(s, t)
  {
    assert ([a] + s)[1..] == s;
  }

  /** The sequence algebra of one step past an element that precedes `x`. */
  lemma StableStep(a: Message, x: Message, t: int, rest: seq<Message>, inserted: seq<Message>)
    requires a.timestamp != x.timestamp
    requires WithTimestamp(inserted, t) == (if x.timestamp == t then [x] else []) + WithTimestamp(rest, t)
    ensures WithTimestamp([a] + inserted, t) ==
            (if x.timestamp == t then [x] else []) + WithTimestamp([a] + rest, t)
  {
    WithTimestampCons(a, inserted, t);
    WithTimestampCons(a, rest, t);
  }

  /** One step of `InsertStable` past a head that precedes `x`. */
  lemma InsertStablePast(order: SortOrder, x: Message, s: seq<Message>, t: int)
    requires s != [] && Rank(order, s[0]) < Rank(order, x)
    requires WithTimestamp(Insert(order, x, s[1..]), t) ==
             (if x.timestamp == t then [x] else []) + WithTimestamp(s[1..], t)
    ensures WithTimestamp(Insert(order, x, s), t) ==
            (if x.timestamp == t then [x] else []) + WithTimestamp(s, t)
  {
    var rest := s[1..];
    var inserted := Insert(order, x, rest);
    assert Insert(order, x, s) == [s[0]] + inserted;
    StableStep(s[0], x, t, rest, inserted);
    assert [s[0]] + rest == s;
  }

  lemma {:induction false} InsertStable(order: SortOrder, x: Message, s: seq<Message>, t: int)
    ensures WithTimestamp(Insert(order, x, s), t) ==
            (if x.timestamp == t then [x] else []) + WithTimestamp(s, t)
  {
    if s == [] {
      WithTimestampCons(x, [], t);
    } else if Rank(order, s[0]) < Rank(order, x) {
      InsertStable(order, x, s[1..], t);
      InsertStablePast(order, x, s, t);
    } else {
      assert Insert(order, x, s) == [x] + s;
      WithTimestampCons(x, s, t);
    }
  }

  /** Stability: among messages with equal timestamps the sort keeps the
      original order. */
  lemma {:induction false} SortStable(order: SortOrder, messages: seq<Message>, t: int)
    ensures WithTimestamp(SortMessages(order, messages), t) == WithTimestamp(messages, t)
  {
    if messages != [] {
      SortStable(order, messages[1..], t);
      InsertStable(order, messages[0], SortMessages(order, messages[1..]), t);
    }
  }

  /** `formatDuration`: the same expression as `formatAudioTime`. */
  function FormatDuration(seconds: int): (r: string)
    ensures seconds >= 0 ==> ParseClock(r) == Some(seconds)
    ensures seconds >= 0 ==> IsDecimal(r[..|r| - 3]) && DigitsValue(r[..|r| - 3]) == seconds / 60
  {
    AudioUtils.FormatAudioTime(seconds)
  }

  /** The timeline's own state and the store's list, which `handleDelete`
      changes together. */
  datatype Screen = Screen(timeline: TimelineState, messages: seq<Message>)

  /** `handleDelete(id)`. */
  function HandleDelete(s: Screen, id: string): (r: Screen)
    ensures r.timeline.sortOrder == s.timeline.sortOrder
    ensures s.timeline.currentlyPlaying == Some(id) ==> r.timeline.currentlyPlaying.None?
    ensures s.timeline.currentlyPlaying != Some(id) ==>
              r.timeline.currentlyPlaying == s.timeline.currentlyPlaying
    ensures forall m :: m in r.messages <==> m in s.messages && m.id != id
    ensures IsSubsequence(r.messages, s.messages)
    ensures |r.messages| == |s.messages| - VoiceMessages.CountId(s.messages, id)
  {
    var t := if s.timeline.currentlyPlaying == Some(id) then s.timeline.(currentlyPlaying := None)
             else s.timeline;
    Screen(t, VoiceMessages.DeleteMessage(s.messages, id))
  }

  /** After a delete, the playing mark never names the deleted id, and a
      card that was playing for another message is still there and still
      playing. */
  lemma DeleteLeavesNoPlayingCard(s: Screen, id: string)
    ensures HandleDelete(s, id).timeline.currentlyPlaying != Some(id)
    ensures s.timeline.currentlyPlaying != Some(id) ==>
              HandleDelete(s, id).timeline.currentlyPlaying == s.timeline.currentlyPlaying
    ensures forall m :: m in s.messages && m.id != id && CardOf(s.timeline, m).isPlaying ==>
              m in HandleDelete(s, id).messages && CardOf(HandleDelete(s, id).timeline, m).isPlaying
  {
  }

  /** `handlePlayStart(id)`. */
  function HandlePlayStart(t: TimelineState, id: string): (r: TimelineState)
    ensures r.currentlyPlaying == Some(id) && r.sortOrder == t.sortOrder
  {
    t.(currentlyPlaying := Some(id))
  }

  /** `handlePlayEnd`. */
  function HandlePlayEnd(t: TimelineState): (r: TimelineState)
    ensures r.currentlyPlaying.None? && r.sortOrder == t.sortOrder
  {
    t.(currentlyPlaying := None)
  }

  /** A sort button. */
  function SetSortOrder(t: TimelineState, order: SortOrder): (r: TimelineState)
    ensures r.sortOrder == order && r.currentlyPlaying == t.currentlyPlaying
  {
    t.(sortOrder := order)
  }

  /** The duration slot of a card: nothing, the bare text "0", or the
      "Duration: m:ss" line. */
  datatype DurationSlot = Hidden | Zero | Line(text: string)

  /** What one card shows. */
  datatype Card = Card(id: string, title: string, duration: DurationSlot, isPlaying: bool)

  /** `{message.duration && (...)}`: a null duration renders nothing, but a
      zero duration makes the `&&` yield the number 0, which React renders
      as the text "0"; any other number shows the formatted line. */
  function DurationLine(duration: Option<int>): (r: DurationSlot)
    ensures r.Hidden? <==> duration.None?
    ensures r.Zero? <==> duration == Some(0)
    ensures r.Line? <==> duration.Some? && duration.value != 0
    ensures r.Line? ==> r.text == FormatDuration(duration.value)
    ensures r.Line? && duration.value > 0 ==> ParseClock(r.text) == duration
  {
    match duration
    case None => Hidden
    case Some(d) => if d == 0 then Zero else Line(FormatDuration(d))
  }

  function CardOf(t: TimelineState, m: Message): (c: Card)
    ensures c.id == m.id
    ensures m.title != "" ==> c.title == m.title
    ensures m.title == "" ==> c.title == "Voice Message"
    ensures c.isPlaying <==> t.currentlyPlaying == Some(m.id)
    ensures c.duration == DurationLine(m.duration)
  {
    Card(m.id, OrElse(m.title, "Voice Message"), DurationLine(m.duration),
         t.currentlyPlaying == Some(m.id))
  }

  function CardsOf(t: TimelineState, s: seq<Message>): (r: seq<Card>)
    ensures |r| == |s|
    ensures forall i :: 0 <= i < |s| ==> r[i] == CardOf(t, s[i])
  {
    seq(|s|, i requires 0 <= i < |s| => CardOf(t, s[i]))
  }

  datatype Body = EmptyState | CardList(cards: seq<Card>)

  datatype View = View(sortButtons: bool, body: Body)

  /** The rendered list: sort buttons and cards when there are messages, the
      empty state otherwise. */
  function Render(s: Screen): (v: View)
    ensures v.sortButtons <==> |s.messages| > 0
    ensures v.body.EmptyState? <==> |s.messages| == 0
    ensures v.body.CardList? ==>
              v.body.cards == CardsOf(s.timeline, SortMessages(s.timeline.sortOrder, s.messages))
  {
    if |s.messages| == 0 then View(false, EmptyState)
    else View(true, CardList(CardsOf(s.timeline, SortMessages(s.timeline.sortOrder, s.messages))))
  }

  /** Every card marked playing carries the one playing id, and none is
      marked when nothing plays. */
  lemma AtMostOnePlaying(s: Screen)
    ensures var v := Render(s);
            v.body.CardList? ==>
              (forall i :: 0 <= i < |v.body.cards| && v.body.cards[i].isPlaying ==>
                 s.timeline.currentlyPlaying == Some(v.body.cards[i].id))
              && (s.timeline.currentlyPlaying.None? ==>
                 forall i :: 0 <= i < |v.body.cards| ==> !v.body.cards[i].isPlaying)
  {
  }

  /** Starting one card stops every other: once `handlePlayStart(id)` runs,
      each card's player follows its `isPlaying` prop, so a player on a card
      with another id stops and the one with `id` plays. */
  lemma PlayStartStopsOthers(t: TimelineState, id: string, m: Message, p: AudioPlayer.Player)
    requires p.hasAudio
    ensures var card := CardOf(HandlePlayStart(t, id), m);
            var synced := AudioPlayer.SyncExternal(p, Some(card.isPlaying)).player;
            synced.isPlaying <==> m.id == id
  {
  }

  /** Toggling play on a card marks that card as the one playing. */
  lemma ToggleMarksCard(t: TimelineState, m: Message, p: AudioPlayer.Player)
    requires p.hasAudio && !p.isPlaying
    ensures var reaction := AudioPlayer.TogglePlay(p);
            reaction.effects[0] == AudioPlayer.CallPlayStart
            && CardOf(HandlePlayStart(t, m.id), m).isPlaying
  {
  }
}
