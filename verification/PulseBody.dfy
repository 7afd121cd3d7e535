/** The bodies of the monitor agent's pings
    (scripts/host_runtime/app_ha_monitor.py, compose_event_body and its neighbours).
 */
module PulseBody {
  import opened Text

  const BODY_LIMIT_BYTES := 8000
  const MAX_ITEMS := 0x1_0000_0000_0000_0000
  const AGENT := " agent=2.1.1"

  datatype Priority = High | Low
  datatype Section = New | Reminder | Resolved | Ongoing
  datatype Item = Item(section: Section, key: string, priority: Priority, message: string)
  datatype Config = Config(cluster: string, node: string, role: string)

  /** A UTC time as the agent prints it, YYYY-MM-DDTHH:MM:SSZ. */
  type Stamp = s: string | |s| == 20 && forall i :: 0 <= i < |s| ==> s[i] in "0123456789-:TZ"
    witness "2026-01-01T00:00:00Z"

  function Tag(p: Priority): string {
    if p == High then "p1" else "p2"
  }

  function Marker(p: Priority): string {
    if p == High then P1 else P2
  }

  function Title(s: Section): string {
    match s
    case New => "NEW"
    case Reminder => "REMINDER"
    case Resolved => "RESOLVED"
    case Ongoing => "ONGOING"
  }

  /** The key is padded to 18 characters, and a space follows. */
  function Gap(keyLength: nat): string {
    Spaces(if keyLength < 18 then 19 - keyLength else 1)
  }

  function Bullet(p: Priority): string {
    "  [" + Tag(p) + "] "
  }

  function ItemLine(item: Item): string {
    var key := Sanitize(item.key);
    Bullet(item.priority) + (key + (Gap(|key|) + Sanitize(item.message)))
  }

  function EventText(config: Config, pulse: string): string {
    "BMAC event cluster=" + config.cluster + " node=" + config.node + " role=" + config.role + " pulse=" + pulse
  }

  function TimeLine(stamp: Stamp): string {
    "time=" + stamp + AGENT
  }

  const MERGED := "pulse rate limit reached" + "; some changes were merged"

  /** The lines after the first, up to the sections. */
  function HeaderLines(config: Config, stamp: Stamp, pulse: string, rateLimited: bool): seq<string> {
    [Sanitize(EventText(config, pulse))] + [TimeLine(stamp)] + if rateLimited then [MERGED] else []
  }

  // Sections --------------------------------------------------------------------

  /** What a body includes, section by section. */
  datatype Included = Included(news: seq<Item>, reminders: seq<Item>, resolved: seq<Item>, ongoing: seq<Item>) {
    function Get(section: Section): seq<Item> {
      match section
      case New => news
      case Reminder => reminders
      case Resolved => resolved
      case Ongoing => ongoing
    }

    function Set(section: Section, items: seq<Item>): Included {
      match section
      case New => this.(news := items)
      case Reminder => this.(reminders := items)
      case Resolved => this.(resolved := items)
      case Ongoing => this.(ongoing := items)
    }

    function Count(): nat {
      |news| + |reminders| + |resolved| + |ongoing|
    }

    function Carried(): seq<Item> {
      news + reminders + resolved
    }
  }

  function Of(outbox: seq<Item>, section: Section): seq<Item> {
    if outbox == [] then [] else
      var init := Of(outbox[..|outbox| - 1], section);
      if outbox[|outbox| - 1].section == section then init + [outbox[|outbox| - 1]] else init
  }

  function Everything(outbox: seq<Item>, ongoing: seq<Item>): Included {
    Included(Of(outbox, New), Of(outbox, Reminder), Of(outbox, Resolved), ongoing)
  }

  predicate Announces(item: Item) {
    item.section == New || item.section == Reminder
  }

  /** Some NEW or REMINDER item has high priority. */
  predicate Urgent(items: seq<Item>) {
    exists x | x in items :: Announces(x) && x.priority == High
  }

  function ItemLines(items: seq<Item>): (r: seq<string>)
    ensures |r| == |items|
  {
    seq(|items|, i requires 0 <= i < |items| => ItemLine(items[i]))
  }

  function SectionLines(section: Section, items: seq<Item>): seq<string> {
    if items == [] then [] else [""] + [Title(section)] + ItemLines(items)
  }

  function OmittedLine(omitted: nat): string {
    "(" + Decimal(omitted) + (" more items omitted; see " + "show_monitoring_state.sh)")
  }

  function OmittedLines(omitted: nat): seq<string> {
    if omitted == 0 then [] else [""] + [OmittedLine(omitted)]
  }

  /** The lines after the first. */
  function BodyLines(header: seq<string>, inc: Included, omitted: nat): seq<string> {
    header + SectionLines(New, inc.news) + SectionLines(Reminder, inc.reminders)
    + SectionLines(Resolved, inc.resolved) + SectionLines(Ongoing, inc.ongoing) + OmittedLines(omitted)
  }

  function Unlines(lines: seq<string>): string {
    if lines == [] then "" else Unlines(lines[..|lines| - 1]) + (lines[|lines| - 1] + ['\n'])
  }

  function FirstLine(p: Priority): string {
    EVENT + [' '] + Marker(p)
  }

  function Rest(header: seq<string>, inc: Included, omitted: nat): string {
    Unlines(BodyLines(header, inc, omitted))
  }

  function Render(p: Priority, header: seq<string>, inc: Included, omitted: nat): string {
    FirstLine(p) + (['\n'] + Rest(header, inc, omitted))
  }

  // UTF-8 -----------------------------------------------------------------------

  /** The bytes of a character (section 3 of RFC 3629). */
  function CharBytes(c: char): (n: nat)
    ensures 1 <= n <= 4
  {
    var code := c as int;
    if code < 0x80 then 1 else if code < 0x800 then 2 else if code < 0x1_0000 then 3 else 4
  }

  function Bytes(s: string): nat {
    if s == "" then 0 else Bytes(s[..|s| - 1]) + CharBytes(s[|s| - 1])
  }

  lemma {:induction false} BytesOfConcat(a: string, b: string)
    ensures Bytes(a + b) == Bytes(a) + Bytes(b)
  {
    if b == "" {
      assert a + b == a;
    } else {
      BytesOfConcat(a, b[..|b| - 1]);
      assert (a + b)[..|a + b| - 1] == a + b[..|b| - 1];
    }
  }

  lemma {:induction false} AtMostFourBytesEach(s: string)
    ensures Bytes(s) <= 4 * |s|
  {
    if s != "" {
      AtMostFourBytesEach(s[..|s| - 1]);
    }
  }

  // Trimming --------------------------------------------------------------------

  const DROP_ORDER := [Ongoing, Resolved, Reminder, New]

  /** Without the last item of the least important section that has any. */
  function DropOne(inc: Included): (r: Included)
    requires inc.Count() > 0
    ensures r.Count() == inc.Count() - 1
  {
    if inc.ongoing != [] then inc.(ongoing := inc.ongoing[..|inc.ongoing| - 1])
    else if inc.resolved != [] then inc.(resolved := inc.resolved[..|inc.resolved| - 1])
    else if inc.reminders != [] then inc.(reminders := inc.reminders[..|inc.reminders| - 1])
    else inc.(news := inc.news[..|inc.news| - 1])
  }

  /** A body by what it includes and how many items it omits. */
  type Renderer = (Included, nat) -> string

  function RendererOf(p: Priority, header: seq<string>): Renderer {
    (inc: Included, omitted: nat) => Render(p, header, inc, omitted)
  }

  predicate Fits(render: Renderer, inc: Included, omitted: nat) {
    Bytes(render(inc, omitted)) <= BODY_LIMIT_BYTES
  }

  function DropMany(inc: Included, n: nat): (r: Included)
    requires n <= inc.Count()
    ensures r.Count() == inc.Count() - n
  {
    if n == 0 then inc else DropOne(DropMany(inc, n - 1))
  }

  /** Drop items one by one until the body fits or nothing is left: how many. */
  function Trim(render: Renderer, all: Included, omitted: nat): (n: nat)
    requires omitted <= all.Count()
    ensures n <= all.Count()
    decreases all.Count() - omitted
  {
    if Fits(render, DropMany(all, omitted), omitted) || omitted == all.Count() then omitted
    else Trim(render, all, omitted + 1)
  }

  function PriorityOf(items: seq<Item>): Priority {
    if Urgent(items) then High else Low
  }

  function Result(header: seq<string>, outbox: seq<Item>, ongoing: seq<Item>): (string, seq<Item>) {
    var all := Everything(outbox, ongoing);
    var omitted := Trim(RendererOf(PriorityOf(outbox), header), all, 0);
    var inc := DropMany(all, omitted);
    var carried := inc.Carried();
    if carried == [] then ("", []) else (Render(PriorityOf(carried), header, inc, omitted), carried)
  }

  function ReplaceFirst(s: string, old_: string, new_: string): string
    decreases |s|
  {
    if old_ <= s then new_ + s[|old_|..]
    else if s == "" then ""
    else [s[0]] + ReplaceFirst(s[1..], old_, new_)
  }

  lemma ReplacesAtTheStart(old_: string, new_: string, rest: string)
    ensures ReplaceFirst(old_ + rest, old_, new_) == new_ + rest
  {
    assert (old_ + rest)[|old_|..] == rest;
  }

  /** The /fail body and the outbox items it carries. */
  method ComposeEventBody(config: Config, outbox: seq<Item>, ongoing: seq<Item>, stamp: Stamp, pulse: string,
                          rateLimited: bool) returns (body: string, carried: seq<Item>)
    ensures (body, carried) == Result(HeaderLines(config, stamp, pulse, rateLimited), outbox, ongoing)
  {
    var header := HeaderLines(config, stamp, pulse, rateLimited);
    var priority := PriorityOf(outbox);
    var inc, omitted;
    body, inc, omitted := Shorten(RendererOf(priority, header), Everything(outbox, ongoing));
    carried := inc.Carried();
    // Nothing of the outbox is left.
    if carried == [] {
      return "", [];
    }
    CarriedComesFromTheOutbox(RendererOf(priority, header), outbox, ongoing);
    body := Downgrade(priority, header, inc, omitted, carried);
  }

  /** The drop loop, over the sections from the least important. */
  method Shorten(render: Renderer, all: Included) returns (body: string, inc: Included, omitted: nat)
    ensures omitted == Trim(render, all, 0) && inc == DropMany(all, omitted)
    ensures body == render(inc, omitted)
  {
    inc, omitted := all, 0;
    body := render(inc, omitted);
    for s := 0 to 4
      invariant body == render(inc, omitted)
      invariant omitted <= all.Count() && inc == DropMany(all, omitted)
      invariant Trim(render, all, omitted) == Trim(render, all, 0)
      invariant Fits(render, inc, omitted) || EmptyUpTo(inc, s)
    {
      var section := DROP_ORDER[s];
      while Bytes(body) > BODY_LIMIT_BYTES && inc.Get(section) != []
        invariant body == render(inc, omitted)
        invariant omitted <= all.Count() && inc == DropMany(all, omitted)
        invariant Trim(render, all, omitted) == Trim(render, all, 0)
        invariant Fits(render, inc, omitted) || EmptyUpTo(inc, s)
        decreases |inc.Get(section)|
      {
        var items := inc.Get(section);
        DropsFrom(inc, s);
        inc := inc.Set(section, items[..|items| - 1]);
        omitted := omitted + 1;
        body := render(inc, omitted);
      }
    }
  }

  /** The first s sections to drop from are empty. */
  predicate EmptyUpTo(inc: Included, s: nat) {
    && (s >= 1 ==> inc.ongoing == [])
    && (s >= 2 ==> inc.resolved == [])
    && (s >= 3 ==> inc.reminders == [])
    && (s >= 4 ==> inc.news == [])
  }

  lemma DropsFrom(inc: Included, s: nat)
    requires s < 4 && EmptyUpTo(inc, s) && inc.Get(DROP_ORDER[s]) != []
    ensures var items := inc.Get(DROP_ORDER[s]);
            && inc.Count() > 0
            && inc.Set(DROP_ORDER[s], items[..|items| - 1]) == DropOne(inc)
            && EmptyUpTo(DropOne(inc), s)
            && |DropOne(inc).Get(DROP_ORDER[s])| == |items| - 1
  {
  }

  /** The first line says p1 only for a p1 item that is carried. */
  method Downgrade(priority: Priority, header: seq<string>, inc: Included, omitted: nat, carried: seq<Item>)
    returns (body: string)
    requires priority == Low ==> !Urgent(carried)
    ensures body == Render(PriorityOf(carried), header, inc, omitted)
  {
    body := Render(priority, header, inc, omitted);
    ghost var rest := ['\n'] + Rest(header, inc, omitted);
    ReplacesAtTheStart(FirstLine(priority), FirstLine(Low), rest);
    if !(exists x | x in carried :: Announces(x)) {
      body := ReplaceFirst(body, FirstLine(priority), FirstLine(Low));
    } else if priority == High && !Urgent(carried) {
      body := ReplaceFirst(body, FirstLine(priority), FirstLine(Low));
    }
  }

  // What a body carries ---------------------------------------------------------

  /** A prefix of each section, and a section is short only once every less
      important one is empty. */
  predicate KeptOf(r: Included, inc: Included) {
    && r.news <= inc.news && r.reminders <= inc.reminders && r.resolved <= inc.resolved && r.ongoing <= inc.ongoing
    && (r.news != inc.news ==> r.reminders == [] && r.resolved == [] && r.ongoing == [])
    && (r.reminders != inc.reminders ==> r.resolved == [] && r.ongoing == [])
    && (r.resolved != inc.resolved ==> r.ongoing == [])
  }

  lemma {:induction false} DropsKeep(inc: Included, n: nat)
    requires n <= inc.Count()
    ensures KeptOf(DropMany(inc, n), inc)
  {
    if n > 0 {
      DropsKeep(inc, n - 1);
    }
  }

  /** Trimming drops the least number of items with which the body fits. */
  lemma {:induction false} TrimDropsTheLeast(render: Renderer, all: Included, omitted: nat)
    requires omitted <= all.Count()
    ensures var n := Trim(render, all, omitted);
            && omitted <= n
            && (Fits(render, DropMany(all, n), n) || n == all.Count())
            && forall k: nat :: omitted <= k < n ==> !Fits(render, DropMany(all, k), k)
    decreases all.Count() - omitted
  {
    if !Fits(render, DropMany(all, omitted), omitted) && omitted < all.Count() {
      TrimDropsTheLeast(render, all, omitted + 1);
    }
  }

  lemma {:induction false} OfIsASelection(outbox: seq<Item>, section: Section)
    ensures forall x :: x in Of(outbox, section) <==> x in outbox && x.section == section
  {
    if outbox != [] {
      OfIsASelection(outbox[..|outbox| - 1], section);
    }
  }

  lemma CarriedComesFromTheOutbox(render: Renderer, outbox: seq<Item>, ongoing: seq<Item>)
    ensures var all := Everything(outbox, ongoing);
            var carried := DropMany(all, Trim(render, all, 0)).Carried();
            && (forall x :: x in carried ==> x in outbox && x.section != Ongoing)
            && (Urgent(carried) ==> Urgent(outbox))
  {
    var all := Everything(outbox, ongoing);
    var n := Trim(render, all, 0);
    DropsKeep(all, n);
    OfIsASelection(outbox, New);
    OfIsASelection(outbox, Reminder);
    OfIsASelection(outbox, Resolved);
    var kept := DropMany(all, n);
    assert forall x :: x in kept.news ==> x in all.news;
    assert forall x :: x in kept.reminders ==> x in all.reminders;
    assert forall x :: x in kept.resolved ==> x in all.resolved;
  }

  // Size ------------------------------------------------------------------------

  function TotalLength(lines: seq<string>): nat {
    if lines == [] then 0 else TotalLength(lines[..|lines| - 1]) + |lines[|lines| - 1]| + 1
  }

  lemma {:induction false} UnlinesLength(lines: seq<string>)
    ensures |Unlines(lines)| == TotalLength(lines)
  {
    if lines != [] {
      UnlinesLength(lines[..|lines| - 1]);
    }
  }

  lemma {:induction false} TotalLengthOfConcat(a: seq<string>, b: seq<string>)
    ensures TotalLength(a + b) == TotalLength(a) + TotalLength(b)
  {
    if b == [] {
      assert a + b == a;
    } else {
      TotalLengthOfConcat(a, b[..|b| - 1]);
      assert (a + b)[..|a + b| - 1] == a + b[..|b| - 1];
    }
  }

  lemma TotalLengthOfOne(line: string)
    ensures TotalLength([line]) == |line| + 1
  {
    assert [line][..0] == [];
  }

  lemma ItemLineIsShort(item: Item)
    ensures |ItemLine(item)| <= 630
  {
    SanitizeIsClean(item.key);
    SanitizeIsClean(item.message);
  }

  lemma OneItemSection(section: Section, items: seq<Item>)
    requires |items| <= 1
    ensures TotalLength(SectionLines(section, items)) <= if items == [] then 0 else 650
  {
    if items != [] {
      ItemLineIsShort(items[0]);
      assert ItemLines(items) == [ItemLine(items[0])];
      TotalLengthOfConcat([""] + [Title(section)], [ItemLine(items[0])]);
      TotalLengthOfConcat([""], [Title(section)]);
      TotalLengthOfOne("");
      TotalLengthOfOne(Title(section));
      TotalLengthOfOne(ItemLine(items[0]));
    }
  }

  lemma HeaderIsShort(config: Config, stamp: Stamp, pulse: string, rateLimited: bool)
    ensures TotalLength(HeaderLines(config, stamp, pulse, rateLimited)) <= 400
  {
    var event := Sanitize(EventText(config, pulse));
    SanitizeIsClean(EventText(config, pulse));
    TotalLengthOfOne(event);
    TotalLengthOfOne(TimeLine(stamp));
    TotalLengthOfOne(MERGED);
    TotalLengthOfConcat([event], [TimeLine(stamp)]);
    TotalLengthOfConcat([event] + [TimeLine(stamp)], if rateLimited then [MERGED] else []);
  }

  lemma OmittedIsShort(omitted: nat)
    requires omitted < MAX_ITEMS
    ensures TotalLength(OmittedLines(omitted)) <= 80
  {
    if omitted > 0 {
      SizesAreShort(omitted);
      TotalLengthOfConcat([""], [OmittedLine(omitted)]);
      TotalLengthOfOne("");
      TotalLengthOfOne(OmittedLine(omitted));
    }
  }

  /** A body with at most one item always fits. */
  lemma SingleItemFits(p: Priority, config: Config, stamp: Stamp, pulse: string, rateLimited: bool,
                       inc: Included, omitted: nat)
    requires inc.Count() <= 1 && omitted < MAX_ITEMS
    ensures Fits(RendererOf(p, HeaderLines(config, stamp, pulse, rateLimited)), inc, omitted)
  {
    var h := HeaderLines(config, stamp, pulse, rateLimited);
    HeaderIsShort(config, stamp, pulse, rateLimited);
    OmittedIsShort(omitted);
    OneItemSection(New, inc.news);
    OneItemSection(Reminder, inc.reminders);
    OneItemSection(Resolved, inc.resolved);
    OneItemSection(Ongoing, inc.ongoing);
    BodyLinesLength(h, inc, omitted);
    UnlinesLength(BodyLines(h, inc, omitted));
    assert |Render(p, h, inc, omitted)| == 17 + |Rest(h, inc, omitted)|;
    AtMostFourBytesEach(Render(p, h, inc, omitted));
  }

  lemma BodyLinesLength(header: seq<string>, inc: Included, omitted: nat)
    ensures TotalLength(BodyLines(header, inc, omitted)) ==
            TotalLength(header) + TotalLength(SectionLines(New, inc.news))
            + TotalLength(SectionLines(Reminder, inc.reminders)) + TotalLength(SectionLines(Resolved, inc.resolved))
            + TotalLength(SectionLines(Ongoing, inc.ongoing)) + TotalLength(OmittedLines(omitted))
  {
    var n, r, d, o := SectionLines(New, inc.news), SectionLines(Reminder, inc.reminders),
                      SectionLines(Resolved, inc.resolved), SectionLines(Ongoing, inc.ongoing);
    TotalLengthOfConcat(header, n);
    TotalLengthOfConcat(header + n, r);
    TotalLengthOfConcat(header + n + r, d);
    TotalLengthOfConcat(header + n + r + d, o);
    TotalLengthOfConcat(header + n + r + d + o, OmittedLines(omitted));
  }

  lemma {:induction false} AsciiBytes(s: string)
    requires forall i :: 0 <= i < |s| ==> s[i] as int < 0x80
    ensures Bytes(s) == |s|
  {
    if s != "" {
      AsciiBytes(s[..|s| - 1]);
    }
  }

  lemma FirstLineBytes(p: Priority)
    ensures Bytes(FirstLine(p)) == 16
  {
    AsciiBytes(FirstLine(p));
  }

  lemma PriorityDoesNotChangeSize(p: Priority, q: Priority, header: seq<string>, inc: Included, omitted: nat)
    ensures Bytes(Render(p, header, inc, omitted)) == Bytes(Render(q, header, inc, omitted))
  {
    forall r: Priority
      ensures Bytes(Render(r, header, inc, omitted)) == 16 + Bytes(['\n'] + Rest(header, inc, omitted))
    {
      BytesOfConcat(FirstLine(r), ['\n'] + Rest(header, inc, omitted));
      FirstLineBytes(r);
    }
  }

  lemma {:induction false} CountIsBounded(outbox: seq<Item>, ongoing: seq<Item>)
    ensures Everything(outbox, ongoing).Count() <= |outbox| + |ongoing|
    ensures (exists x :: x in outbox && x.section != Ongoing) ==> Everything(outbox, ongoing).Carried() != []
  {
    if outbox != [] {
      CountIsBounded(outbox[..|outbox| - 1], ongoing);
    }
  }

  /** What a pulse makes of the outbox when it drops n items. */
  ghost predicate DropsExactly(header: seq<string>, outbox: seq<Item>, ongoing: seq<Item>,
                               body: string, carried: seq<Item>, n: nat)
  {
    var all := Everything(outbox, ongoing);
    && n < all.Count()
    && var kept := DropMany(all, n);
    && KeptOf(kept, all)
    && carried == kept.Carried()
    && body == Render(PriorityOf(carried), header, kept, n)
    // One item fewer omitted would already be too long.
    && forall k: nat :: k < n ==> !Fits(RendererOf(PriorityOf(outbox), header), DropMany(all, k), k)
  }

  /** A pulse of a non-empty outbox carries something and fits the limit: it carries
      a prefix of each section, drops a NEW only once every other section is empty,
      drops no more than needed, and its first line says p1 exactly when a NEW or
      REMINDER it carries is p1. (No list is longer than a machine word counts.) */
  lemma PulseCarriesWhatFits(config: Config, outbox: seq<Item>, ongoing: seq<Item>, stamp: Stamp, pulse: string,
                             rateLimited: bool)
    requires exists x :: x in outbox && x.section != Ongoing
    requires |outbox| + |ongoing| < MAX_ITEMS
    ensures var header := HeaderLines(config, stamp, pulse, rateLimited);
            var (body, carried) := Result(header, outbox, ongoing);
            && carried != [] && Bytes(body) <= 8000
            && exists n: nat :: DropsExactly(header, outbox, ongoing, body, carried, n)
  {
    var all := Everything(outbox, ongoing);
    var header := HeaderLines(config, stamp, pulse, rateLimited);
    CountIsBounded(outbox, ongoing);
    var render := RendererOf(PriorityOf(outbox), header);
    forall inc: Included, omitted: nat | inc.Count() <= 1 && omitted < MAX_ITEMS ensures Fits(render, inc, omitted) {
      SingleItemFits(PriorityOf(outbox), config, stamp, pulse, rateLimited, inc, omitted);
    }
    var n := KeepsOne(render, all);
    DropsKeep(all, n);
    var kept := DropMany(all, n);
    KeptCarries(kept, all);
    PriorityDoesNotChangeSize(PriorityOf(outbox), PriorityOf(kept.Carried()), header, kept, n);
    var (body, carried) := Result(header, outbox, ongoing);
    assert body == Render(PriorityOf(carried), header, kept, n) && carried == kept.Carried();
    assert DropsExactly(header, outbox, ongoing, body, carried, n);
  }

  lemma KeepsOne(render: Renderer, all: Included) returns (n: nat)
    requires 0 < all.Count() < MAX_ITEMS
    requires forall inc: Included, omitted: nat :: inc.Count() <= 1 && omitted < MAX_ITEMS ==>
               Fits(render, inc, omitted)
    ensures n == Trim(render, all, 0) && n < all.Count()
    ensures Fits(render, DropMany(all, n), n)
    ensures forall k: nat :: k < n ==> !Fits(render, DropMany(all, k), k)
  {
    n := Trim(render, all, 0);
    TrimDropsTheLeast(render, all, 0);
    assert Fits(render, DropMany(all, all.Count() - 1), all.Count() - 1);
  }

  lemma KeptCarries(kept: Included, all: Included)
    requires KeptOf(kept, all) && kept.Count() > 0 && all.Carried() != []
    ensures kept.Carried() != []
  {
  }

  // Marker words ------------------------------------------------------------------

  lemma {:induction false} UnlinesIsMarkerFree(lines: seq<string>)
    requires forall i :: 0 <= i < |lines| ==> MarkerFree(lines[i])
    ensures MarkerFree(Unlines(lines))
  {
    if lines != [] {
      var init := lines[..|lines| - 1];
      var last := lines[|lines| - 1];
      UnlinesIsMarkerFree(init);
      EndLine(last);
      if init != [] {
        var u := Unlines(init);
        EndsWithNewline(init);
        var m := |u| - 1;
        MarkerFreePrefix(u, m);
        MarkerFreeJoin(u[..m], '\n', last + ['\n']);
        assert u == u[..m] + ['\n'];
      } else {
        assert Unlines(lines) == last + ['\n'];
      }
    }
  }

  lemma EndLine(line: string)
    requires MarkerFree(line)
    ensures MarkerFree(line + ['\n'])
  {
    MarkerFreeJoin(line, '\n', "");
    assert line + ['\n'] + "" == line + ['\n'];
  }

  lemma EndsWithNewline(lines: seq<string>)
    requires lines != []
    ensures Unlines(lines) != "" && Unlines(lines)[|Unlines(lines)| - 1] == '\n'
  {
  }

  lemma BulletHasNoB(p: Priority)
    ensures NoB(Bullet(p))
  {
  }

  lemma SpacesHaveNoB(n: nat)
    ensures NoB(Spaces(n))
  {
  }

  lemma ItemLineIsMarkerFree(item: Item)
    ensures MarkerFree(ItemLine(item))
  {
    var key, message := Sanitize(item.key), Sanitize(item.message);
    SanitizeIsClean(item.key);
    SanitizeIsClean(item.message);
    AfterKey(key, message);
    BulletHasNoB(item.priority);
    NoBInFront(Bullet(item.priority), key + (Gap(|key|) + message));
  }

  lemma AfterKey(key: string, message: string)
    requires MarkerFree(key) && MarkerFree(message)
    ensures MarkerFree(key + (Gap(|key|) + message))
  {
    var gap := Gap(|key|);
    assert gap == [' '] + Spaces(|gap| - 1);
    SpacesHaveNoB(|gap| - 1);
    NoBInFront(Spaces(|gap| - 1), message);
    MarkerFreeJoin(key, ' ', Spaces(|gap| - 1) + message);
    assert key + [' '] + (Spaces(|gap| - 1) + message) == key + (gap + message);
  }

  lemma SectionIsMarkerFree(section: Section, items: seq<Item>)
    ensures forall i :: 0 <= i < |SectionLines(section, items)| ==> MarkerFree(SectionLines(section, items)[i])
  {
    var lines := SectionLines(section, items);
    forall i | 0 <= i < |lines| ensures MarkerFree(lines[i]) {
      if i == 1 {
        WithoutB(Title(section));
      } else if i >= 2 {
        assert lines[i] == ItemLines(items)[i - 2] == ItemLine(items[i - 2]);
        ItemLineIsMarkerFree(items[i - 2]);
      }
    }
  }

  lemma TimeLineHasNoB(stamp: Stamp)
    ensures NoB(TimeLine(stamp))
  {
    assert NoB(stamp);
    NoBJoin("time=", stamp);
    NoBJoin("time=" + stamp, AGENT);
  }

  lemma MergedIsMarkerFree()
    ensures MarkerFree(MERGED)
  {
    NoBJoin("pulse rate limit reached", "; some changes were merged");
    WithoutB(MERGED);
  }

  lemma HeaderIsMarkerFree(config: Config, stamp: Stamp, pulse: string, rateLimited: bool)
    ensures var h := HeaderLines(config, stamp, pulse, rateLimited);
            forall i :: 0 <= i < |h| ==> MarkerFree(h[i])
  {
    SanitizeIsClean(EventText(config, pulse));
    TimeLineHasNoB(stamp);
    WithoutB(TimeLine(stamp));
    MergedIsMarkerFree();
  }

  lemma DecimalHasNoB(n: nat)
    ensures NoB(Decimal(n))
  {
  }

  lemma OmittedIsMarkerFree(omitted: nat)
    ensures forall i :: 0 <= i < |OmittedLines(omitted)| ==> MarkerFree(OmittedLines(omitted)[i])
  {
    if omitted > 0 {
      DecimalHasNoB(omitted);
      NoBJoin("(", Decimal(omitted));
      NoBJoin(" more items omitted; see ", "show_monitoring_state.sh)");
      NoBJoin("(" + Decimal(omitted), " more items omitted; see " + "show_monitoring_state.sh)");
      WithoutB(OmittedLine(omitted));
    }
  }

  /** After its first line a body has no marker word, whatever the names, keys and
      messages in it spell. */
  lemma RestIsMarkerFree(config: Config, stamp: Stamp, pulse: string, rateLimited: bool, inc: Included, omitted: nat)
    ensures MarkerFree(Rest(HeaderLines(config, stamp, pulse, rateLimited), inc, omitted))
  {
    HeaderIsMarkerFree(config, stamp, pulse, rateLimited);
    OmittedIsMarkerFree(omitted);
    SectionIsMarkerFree(New, inc.news);
    SectionIsMarkerFree(Reminder, inc.reminders);
    SectionIsMarkerFree(Resolved, inc.resolved);
    SectionIsMarkerFree(Ongoing, inc.ongoing);
    UnlinesIsMarkerFree(BodyLines(HeaderLines(config, stamp, pulse, rateLimited), inc, omitted));
  }

  /** The marker words of an event body are its first line's two and no others. */
  lemma EventBodyMarkers(config: Config, stamp: Stamp, pulse: string, rateLimited: bool, inc: Included, omitted: nat,
                         p: Priority, i: nat, w: string)
    requires IsMarker(w)
    requires i <= |Render(p, HeaderLines(config, stamp, pulse, rateLimited), inc, omitted)|
    ensures Begins(Render(p, HeaderLines(config, stamp, pulse, rateLimited), inc, omitted)[i..], w)
       <==> (i == 0 && w == EVENT) || (i == 10 && w == Marker(p))
  {
    RestIsMarkerFree(config, stamp, pulse, rateLimited, inc, omitted);
    MarkersOfLineAndRest(FirstLine(p), Rest(HeaderLines(config, stamp, pulse, rateLimited), inc, omitted), i, w);
    if i <= |FirstLine(p)| {
      FirstLineMarkers(p, i, w);
    } else {
      assert |FirstLine(p)| == 16;
    }
  }

  lemma MarkersOfLineAndRest(line: string, rest: string, i: nat, w: string)
    requires MarkerFree(rest) && IsMarker(w) && i <= |line + (['\n'] + rest)|
    ensures Begins((line + (['\n'] + rest))[i..], w) <==> i <= |line| && Begins(line[i..], w)
  {
    var body := line + (['\n'] + rest);
    MarkerLetters(w);
    if i <= |line| {
      assert body[i..] == line[i..] + ['\n'] + rest;
      WordStopsAt(line[i..], '\n', rest, w);
    } else {
      assert body[i..] == rest[i - |line| - 1..];
    }
  }

  lemma FirstLineMarkers(p: Priority, i: nat, w: string)
    requires IsMarker(w) && i <= |FirstLine(p)|
    ensures Begins(FirstLine(p)[i..], w) <==> (i == 0 && w == EVENT) || (i == 10 && w == Marker(p))
  {
    // The space separates the two words.
    var f := FirstLine(p);
    MarkerLetters(w);
    if i <= 9 {
      assert f[i..] == EVENT[i..] + [' '] + Marker(p);
      WordStopsAt(EVENT[i..], ' ', Marker(p), w);
      WordMarkers(EVENT, i, w);
    } else {
      assert f[i..] == Marker(p)[i - 10..];
      WordMarkers(Marker(p), i - 10, w);
    }
  }

  /** A marker word contains itself and no other. */
  lemma WordMarkers(m: string, i: nat, w: string)
    requires IsMarker(m) && IsMarker(w) && i <= |m|
    ensures Begins(m[i..], w) <==> i == 0 && w == m
  {
    MarkerLetters(w);
    MarkerLetters(m);
    if 0 < i < |m| {
      assert m[i..][0] == m[i] && m[i] in "bmacevntlrp12" && m[i] != 'b';
      assert Lower(m[i]) == m[i];
    } else if i == 0 {
      assert m[0..] == m;
      WholeWords(m, w);
    }
  }

  lemma WholeWords(m: string, w: string)
    requires IsMarker(m) && IsMarker(w)
    ensures Begins(m, w) <==> w == m
  {
    assert EVENT[4] == 'e' && CLEAR[4] == 'c' && P1[4] == 'p' && P2[4] == 'p' && P1[5] == '1' && P2[5] == '2';
  }

  // The other bodies ----------------------------------------------------------------

  function ClearText(config: Config, pulse: string): string {
    "BMAC clear cluster=" + config.cluster + " node=" + config.node + " pulse=" + pulse
  }

  function ClearBody(config: Config, pulse: string): string {
    CLEAR + (['\n'] + (Sanitize(ClearText(config, pulse)) + ['\n']))
  }

  function HeartbeatText(config: Config): string {
    "BMAC heartbeat cluster=" + config.cluster + " node=" + config.node + " role=" + config.role
  }

  function HeartbeatTail(stamp: Stamp, openProblems: nat): string {
    TimeLine(stamp) + " open_pro" + ("blems=" + (Decimal(openProblems) + ['\n']))
  }

  function HeartbeatBody(config: Config, stamp: Stamp, openProblems: nat): string {
    Sanitize(HeartbeatText(config)) + ['\n'] + HeartbeatTail(stamp, openProblems)
  }

  lemma NotABmac(tail: string, rest: string)
    requires MarkerFree(rest) && tail == ['b'] + rest && rest != "" && rest[0] == 'l'
    ensures MarkerFree(tail)
  {
    forall i, w | 0 <= i <= |tail| && IsMarker(w) ensures !Begins(tail[i..], w) {
      MarkerLetters(w);
      if i > 0 {
        assert tail[i..] == rest[i - 1..];
      } else {
        assert tail[0..][1] == 'l';
      }
    }
  }

  lemma HeartbeatTailIsMarkerFree(stamp: Stamp, openProblems: nat)
    ensures MarkerFree(HeartbeatTail(stamp, openProblems))
  {
    DecimalHasNoB(openProblems);
    NoBJoin(Decimal(openProblems), ['\n']);
    var number := Decimal(openProblems) + ['\n'];
    NoBJoin("lems=", number);
    WithoutB("lems=" + number);
    var tail := "blems=" + number;
    NotABmac(tail, "lems=" + number);
    TimeLineHasNoB(stamp);
    NoBJoin(TimeLine(stamp), " open_pro");
    NoBInFront(TimeLine(stamp) + " open_pro", tail);
  }

  /** A heartbeat has no marker word, and a clear body only its first line's. */
  lemma QuietBodies(config: Config, stamp: Stamp, pulse: string, openProblems: nat)
    ensures MarkerFree(HeartbeatBody(config, stamp, openProblems))
    ensures forall i, w :: 0 <= i <= |ClearBody(config, pulse)| && IsMarker(w) ==>
              (Begins(ClearBody(config, pulse)[i..], w) <==> i == 0 && w == CLEAR)
  {
    SanitizeIsClean(HeartbeatText(config));
    HeartbeatTailIsMarkerFree(stamp, openProblems);
    MarkerFreeJoin(Sanitize(HeartbeatText(config)), '\n', HeartbeatTail(stamp, openProblems));

    SanitizeIsClean(ClearText(config, pulse));
    var rest := Sanitize(ClearText(config, pulse)) + ['\n'];
    EndLine(Sanitize(ClearText(config, pulse)));
    forall i, w | 0 <= i <= |ClearBody(config, pulse)| && IsMarker(w)
      ensures Begins(ClearBody(config, pulse)[i..], w) <==> i == 0 && w == CLEAR
    {
      MarkersOfLineAndRest(CLEAR, rest, i, w);
      if i <= |CLEAR| {
        WordMarkers(CLEAR, i, w);
      }
    }
  }
}
