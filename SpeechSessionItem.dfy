/**
 * Search highlighting on a session card: the query is compiled as a
 * case-insensitive pattern and every match the matcher finds, left to
 * right, becomes a highlighted span of the text.
 */
module Highlighting {
  import opened Model

  /** A highlighted range [start, end) of a text. */
  datatype Span = Span(start: nat, end: nat)

  /** A text with spans attached; the text itself is never altered by spans. */
  datatype SpannableString = SpannableString(text: string, spans: seq<Span>)

  /** The characters that have a meaning of their own in a regular expression. */
  predicate IsRegexMeta(c: char)
  {
    c in "\\^$.|?*+()[]{}"
  }

  /** A query that compiles to a pattern matching exactly its own characters. */
  predicate IsLiteral(q: string)
  {
    forall i :: 0 <= i < |q| ==> !IsRegexMeta(q[i])
  }

  /** Lower-cases the ASCII capitals and leaves every other character alone. */
  function AsciiLower(c: char): char
  {
    if 'A' <= c <= 'Z' then (c as int + 32) as char else c
  }

  /** Equality of two strings up to ASCII case. */
  predicate EqualsIgnoreCase(a: string, b: string)
  {
    |a| == |b| && forall j :: 0 <= j < |a| ==> AsciiLower(a[j]) == AsciiLower(b[j])
  }

  /** The literal pattern q matches the text at position p. */
  predicate MatchesAt(text: string, q: string, p: int)
  {
    0 <= p && p + |q| <= |text| && EqualsIgnoreCase(text[p..p + |q|], q)
  }

  /** The matcher's search from a position: the first position at or after it where q matches. */
  function FindFrom(text: string, q: string, from: nat): (r: Option<nat>)
    decreases |text| + 1 - from
    ensures r.Some? ==> from <= r.value && MatchesAt(text, q, r.value)
    ensures r.Some? ==> forall p :: from <= p < r.value ==> !MatchesAt(text, q, p)
    ensures r.None? ==> forall p :: from <= p ==> !MatchesAt(text, q, p)
  {
    if from + |q| > |text| then None
    else if MatchesAt(text, q, from) then Some(from)
    else FindFrom(text, q, from + 1)
  }

  /** Where the next search resumes after a match at p: its end, or one further for an empty match. */
  function ResumeAfter(p: nat, q: string): nat
  {
    if |q| == 0 then p + 1 else p + |q|
  }

  /** Every span the matcher reports from a position on, in the order it reports them. */
  function Spans(text: string, q: string, from: nat): seq<Span>
    decreases |text| + 1 - from
  {
    match FindFrom(text, q, from)
    case None => []
    case Some(p) => [Span(p, p + |q|)] + Spans(text, q, ResumeAfter(p, q))
  }

  /**
   * Highlights every match of the query in the message: the loop that asks
   * the matcher for one match after another and attaches a span to each.
   */
  method AdaptHighlightString(message: string, highlightString: string) returns (ss: SpannableString)
    requires IsLiteral(highlightString)
    ensures ss.text == message
    ensures ss.spans == Spans(message, highlightString, 0)
  {
    var spans: seq<Span> := [];
    var next: nat := 0;
    var found := FindFrom(message, highlightString, next);
    while found.Some?
      invariant found == FindFrom(message, highlightString, next)
      invariant spans + Spans(message, highlightString, next) == Spans(message, highlightString, 0)
      decreases |message| + 1 - next
    {
      var start := found.value;
      var end := start + |highlightString|;
      ghost var rest := Spans(message, highlightString, next);
      spans := spans + [Span(start, end)];
      next := if end == start then end + 1 else end;
      assert next == ResumeAfter(start, highlightString);
      assert rest == [Span(start, end)] + Spans(message, highlightString, next);
      found := FindFrom(message, highlightString, next);
    }
    ss := SpannableString(message, spans);
  }

  /** Every span lies inside the text, starts no earlier than the search did, and covers one match of q. */
  lemma {:induction false} SpansMatch(text: string, q: string, from: nat)
    ensures forall k :: 0 <= k < |Spans(text, q, from)| ==>
      var s := Spans(text, q, from)[k];
      from <= s.start <= s.end <= |text| && s.end == s.start + |q| && MatchesAt(text, q, s.start)
    decreases |text| + 1 - from
  {
    match FindFrom(text, q, from)
    case None =>
    case Some(p) =>
      SpansMatch(text, q, ResumeAfter(p, q));
  }

  /** The spans of a whole text are within its bounds and each covers the query up to ASCII case. */
  lemma SpansWithinText(text: string, q: string)
    ensures forall s :: s in Spans(text, q, 0) ==>
      0 <= s.start <= s.end <= |text| && EqualsIgnoreCase(text[s.start..s.end], q)
  {
    SpansMatch(text, q, 0);
    forall s | s in Spans(text, q, 0)
      ensures 0 <= s.start <= s.end <= |text| && EqualsIgnoreCase(text[s.start..s.end], q)
    {
      var k :| 0 <= k < |Spans(text, q, 0)| && Spans(text, q, 0)[k] == s;
    }
  }

  /** Spans come out strictly left to right, and none overlaps a later one. */
  lemma {:induction false} SpansOrdered(text: string, q: string, from: nat)
    ensures forall i, j :: 0 <= i < j < |Spans(text, q, from)| ==>
      Spans(text, q, from)[i].start < Spans(text, q, from)[j].start &&
      Spans(text, q, from)[i].end <= Spans(text, q, from)[j].start
    decreases |text| + 1 - from
  {
    match FindFrom(text, q, from)
    case None =>
    case Some(p) =>
      var next := ResumeAfter(p, q);
      var tail := Spans(text, q, next);
      SpansOrdered(text, q, next);
      SpansMatch(text, q, next);
      assert Spans(text, q, from) == [Span(p, p + |q|)] + tail;
      forall i, j | 0 <= i < j < |Spans(text, q, from)|
        ensures Spans(text, q, from)[i].start < Spans(text, q, from)[j].start
        ensures Spans(text, q, from)[i].end <= Spans(text, q, from)[j].start
      {
        if i > 0 {
          assert Spans(text, q, from)[i] == tail[i - 1];
        }
        assert Spans(text, q, from)[j] == tail[j - 1];
      }
  }

  /**
   * No match is missed: every position where q matches is the start of a
   * span or lies strictly inside one (a match overlapping an earlier one).
   */
  lemma {:induction false} SpansComplete(text: string, q: string, from: nat, p: nat)
    requires from <= p && MatchesAt(text, q, p)
    ensures exists k :: (0 <= k < |Spans(text, q, from)| &&
      (Spans(text, q, from)[k].start == p ||
       Spans(text, q, from)[k].start < p < Spans(text, q, from)[k].end))
    decreases |text| + 1 - from
  {
    match FindFrom(text, q, from)
    case None =>
      assert false;
    case Some(first) =>
      var head := Span(first, first + |q|);
      var tail := Spans(text, q, ResumeAfter(first, q));
      assert Spans(text, q, from) == [head] + tail;
      if p == first || p < first + |q| {
        assert Spans(text, q, from)[0] == head;
      } else {
        SpansComplete(text, q, ResumeAfter(first, q), p);
        var k :| 0 <= k < |tail| && (tail[k].start == p || tail[k].start < p < tail[k].end);
        assert Spans(text, q, from)[k + 1] == tail[k];
      }
  }

  /** The greedy scan: "aaaa" searched for "aa" highlights [0, 2) and [2, 4). */
  lemma GreedyExample()
    ensures Spans("aaaa", "aa", 0) == [Span(0, 2), Span(2, 4)]
  {
  }

  /** With an empty query the matcher reports an empty match at every index, the end included. */
  lemma {:induction false} EmptyQuerySpans(text: string, from: nat)
    requires from <= |text| + 1
    ensures |Spans(text, "", from)| == |text| + 1 - from
    ensures forall k :: 0 <= k < |Spans(text, "", from)| ==> Spans(text, "", from)[k] == Span(from + k, from + k)
    decreases |text| + 1 - from
  {
    if from <= |text| {
      assert MatchesAt(text, "", from);
      assert FindFrom(text, "", from) == Some(from);
      EmptyQuerySpans(text, from + 1);
    }
  }
}

/** Binding a speech session to its card. */
module SessionItems {
  import opened Model
  import opened Highlighting

  /** The number of speaker avatar slots on a card. */
  const SpeakerSlotCount := 5

  /** A list item showing one speech session, optionally highlighting a search string. */
  datatype SpeechSessionItem = SpeechSessionItem(
    session: SpeechSession,
    isShowDayNumber: bool,
    highlightedString: Option<string>)

  /** What a text view shows: a plain string, or a string with highlighted spans. */
  datatype CharSequence = Plain(text: string) | Spanned(ss: SpannableString)

  function TextOf(cs: CharSequence): string
  {
    match cs
    case Plain(text) => text
    case Spanned(ss) => ss.text
  }

  /** An avatar slot: shown with the image it loads, or gone. */
  datatype SpeakerSlot = Visible(imageUrl: string) | Gone

  /** What binding puts on the card. */
  datatype Card = Card(
    isFavorited: bool,
    title: CharSequence,
    description: CharSequence,
    topic: string,
    speakerImages: seq<SpeakerSlot>,
    speakers: string,
    isShowDayNumber: bool)

  /** The total length of the speakers' names. */
  function NamesLength(speakers: seq<Speaker>): nat
  {
    if speakers == [] then 0 else NamesLength(speakers[..|speakers| - 1]) + |speakers[|speakers| - 1].name|
  }

  /**
   * Kotlin's joinToString over the speakers' names with its default
   * separator ", ": every name once, in order, and one separator between
   * neighbours, so nothing else is added.
   */
  function JoinNames(speakers: seq<Speaker>): (joined: string)
    ensures speakers == [] ==> joined == ""
    ensures speakers != [] ==> |joined| == NamesLength(speakers) + 2 * (|speakers| - 1)
  {
    if |speakers| == 0 then ""
    else if |speakers| == 1 then speakers[0].name
    else JoinNames(speakers[..|speakers| - 1]) + ", " + speakers[|speakers| - 1].name
  }

  /** Joining two non-empty lists is joining each and putting one separator between them. */
  lemma {:induction false} JoinNamesAppend(a: seq<Speaker>, b: seq<Speaker>)
    requires a != [] && b != []
    ensures JoinNames(a + b) == JoinNames(a) + ", " + JoinNames(b)
    decreases |b|
  {
    var ab := a + b;
    var last := b[|b| - 1].name;
    assert ab[|ab| - 1].name == last;
    if |b| == 1 {
      assert ab[..|ab| - 1] == a;
      assert JoinNames(ab) == JoinNames(a) + ", " + last;
    } else {
      var init := b[..|b| - 1];
      assert ab[..|ab| - 1] == a + init;
      assert JoinNames(ab) == JoinNames(a + init) + ", " + last;
      JoinNamesAppend(a, init);
      assert JoinNames(b) == JoinNames(init) + ", " + last;
    }
  }

  /** The join begins with the first name, followed by the join of the rest when there is more. */
  lemma JoinNamesFirst(speakers: seq<Speaker>)
    requires speakers != []
    ensures |speakers| == 1 ==> JoinNames(speakers) == speakers[0].name
    ensures |speakers| > 1 ==> JoinNames(speakers) == speakers[0].name + ", " + JoinNames(speakers[1..])
  {
    if |speakers| > 1 {
      var rest := speakers[1..];
      assert speakers == [speakers[0]] + rest;
      JoinNamesAppend([speakers[0]], rest);
    }
  }

  /** The largest and smallest values of a Kotlin Long. */
  const LongMax: int := 0x7fff_ffff_ffff_ffff
  const LongMin: int := -0x8000_0000_0000_0000

  predicate IsDigit(c: char)
  {
    '0' <= c <= '9'
  }

  predicate AllDigits(s: string)
  {
    forall i :: 0 <= i < |s| ==> IsDigit(s[i])
  }

  /** The number a string of decimal digits denotes. */
  function DigitsValue(s: string): nat
    requires AllDigits(s)
  {
    if s == [] then 0
    else DigitsValue(s[..|s| - 1]) * 10 + (s[|s| - 1] as int - '0' as int)
  }

  /**
   * Kotlin's String.toLong: an optional sign, then one or more decimal
   * digits, denoting a value that fits a Long; anything else is a number
   * format error, here None.
   */
  function ParseLong(s: string): (r: Option<int>)
    ensures r.Some? ==> LongMin <= r.value <= LongMax
  {
    if |s| == 0 then None
    else
      var digits := if s[0] == '-' || s[0] == '+' then s[1..] else s;
      if |digits| == 0 || !AllDigits(digits) then None
      else
        var v: int := if s[0] == '-' then -(DigitsValue(digits) as int) else DigitsValue(digits);
        if LongMin <= v <= LongMax then Some(v) else None
  }

  /** The canonical decimal form of a natural number. */
  function Decimal(n: nat): string
    decreases n
  {
    (if n < 10 then "" else Decimal(n / 10)) + [('0' as int + n % 10) as char]
  }

  lemma {:induction false} DecimalDigits(n: nat)
    ensures Decimal(n) != [] && AllDigits(Decimal(n)) && DigitsValue(Decimal(n)) == n
    decreases n
  {
    var last := [('0' as int + n % 10) as char];
    if n < 10 {
      assert Decimal(n) == last;
      assert Decimal(n)[..0] == [];
    } else {
      DecimalDigits(n / 10);
      var d := Decimal(n);
      assert d == Decimal(n / 10) + last;
      assert d[..|d| - 1] == Decimal(n / 10);
    }
  }

  /** Every Long written in decimal reads back as itself. */
  lemma ParseLongRoundTrip(n: int)
    requires LongMin <= n <= LongMax
    ensures 0 <= n ==> ParseLong(Decimal(n)) == Some(n)
    ensures n < 0 ==> ParseLong("-" + Decimal(-n)) == Some(n)
  {
    var m: nat := if n < 0 then -n else n;
    DecimalDigits(m);
    var d := Decimal(m);
    assert IsDigit(d[0]);
    if n < 0 {
      var s := "-" + d;
      assert s[1..] == d;
    }
  }

  /** A number outside the Long range is a number format error, with or without its sign. */
  lemma ParseLongRejectsOutOfRange(n: nat)
    ensures n > LongMax ==> ParseLong(Decimal(n)) == None && ParseLong("+" + Decimal(n)) == None
    ensures n > -LongMin ==> ParseLong("-" + Decimal(n)) == None
  {
    DecimalDigits(n);
    var d := Decimal(n);
    assert IsDigit(d[0]);
    assert ("+" + d)[1..] == d;
    assert ("-" + d)[1..] == d;
  }

  /**
   * A number format error also comes from an empty string, a lone sign, or
   * any character other than a decimal digit after the optional sign.
   */
  lemma ParseLongRejectsMalformed(s: string, i: nat)
    ensures s == "" || s == "-" || s == "+" ==> ParseLong(s) == None
    ensures 0 < i < |s| && !IsDigit(s[i]) ==> ParseLong(s) == None
    ensures 0 == i < |s| && !IsDigit(s[0]) && s[0] != '-' && s[0] != '+' ==> ParseLong(s) == None
  {
  }

  /**
   * Every decimal natural number, read back, in the Long range or beyond
   * it: the value when it fits, a number format error when it does not.
   */
  lemma ParseLongAllDecimals()
    ensures forall n: nat :: ParseLong(Decimal(n)) == if n <= LongMax then Some(n) else None
  {
    forall n: nat
      ensures ParseLong(Decimal(n)) == if n <= LongMax then Some(n) else None
    {
      if n <= LongMax {
        ParseLongRoundTrip(n);
      } else {
        ParseLongRejectsOutOfRange(n);
      }
    }
  }

  /**
   * The item's identity: its session's id read as a Long. An id written
   * as a decimal number that fits a Long is that number; one that does
   * not fit is a number format error.
   */
  function ItemId(item: SpeechSessionItem): (id: Option<int>)
    ensures forall n: nat :: item.session.id == Decimal(n) ==>
      id == if n <= LongMax then Some(n) else None
    ensures id.Some? ==> LongMin <= id.value <= LongMax
  {
    ParseLongAllDecimals();
    ParseLong(item.session.id)
  }

  /** The highlight-or-plain choice for one text of the card. */
  method TextFor(text: string, highlightedString: Option<string>) returns (cs: CharSequence)
    requires highlightedString.Some? ==> IsLiteral(highlightedString.value)
    ensures TextOf(cs) == text
    ensures cs.Spanned? <==> highlightedString.Some?
    ensures cs.Spanned? ==> cs.ss.spans == Spans(text, highlightedString.value, 0)
  {
    if highlightedString.Some? {
      var ss := AdaptHighlightString(text, highlightedString.value);
      cs := Spanned(ss);
    } else {
      cs := Plain(text);
    }
  }

  /**
   * Binds the item's session to a card: the title and description
   * highlighted iff a highlight string is present, one avatar slot per
   * speaker among the five, and the speakers' names joined.
   */
  method Bind(item: SpeechSessionItem) returns (card: Card)
    requires item.highlightedString.Some? ==> IsLiteral(item.highlightedString.value)
    ensures card.isFavorited == item.session.isFavorited
    ensures TextOf(card.title) == item.session.title
    ensures TextOf(card.description) == item.session.desc
    ensures card.title.Spanned? <==> item.highlightedString.Some?
    ensures card.description.Spanned? <==> item.highlightedString.Some?
    ensures item.highlightedString.Some? ==>
      card.title.ss.spans == Spans(item.session.title, item.highlightedString.value, 0) &&
      card.description.ss.spans == Spans(item.session.desc, item.highlightedString.value, 0)
    ensures card.topic == item.session.topic.name
    ensures |card.speakerImages| == SpeakerSlotCount
    ensures forall i :: 0 <= i < SpeakerSlotCount ==>
      (card.speakerImages[i].Visible? <==> i < |item.session.speakers|)
    ensures forall i :: 0 <= i < SpeakerSlotCount && i < |item.session.speakers| ==>
      card.speakerImages[i].imageUrl == item.session.speakers[i].imageUrl
    ensures card.speakers == JoinNames(item.session.speakers)
    ensures card.isShowDayNumber == item.isShowDayNumber
  {
    var session := item.session;
    var title := TextFor(session.title, item.highlightedString);
    var description := TextFor(session.desc, item.highlightedString);
    var slots: seq<SpeakerSlot> := [];
    for index := 0 to SpeakerSlotCount
      invariant |slots| == index
      invariant forall i :: 0 <= i < index ==> (slots[i].Visible? <==> i < |session.speakers|)
      invariant forall i :: 0 <= i < index && i < |session.speakers| ==>
        slots[i].imageUrl == session.speakers[i].imageUrl
    {
      if index < |session.speakers| {
        slots := slots + [Visible(session.speakers[index].imageUrl)];
      } else {
        slots := slots + [Gone];
      }
    }
    card := Card(session.isFavorited, title, description, session.topic.name,
                 slots, JoinNames(session.speakers), item.isShowDayNumber);
  }
}
