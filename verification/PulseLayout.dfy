/** What a reader of a pulse's body sees: its lines, which section each item stands in,
    and how many bytes the body has on the wire.
 */
module PulseLayout {
  import opened Text
  import opened PulseBody

  // Bytes -----------------------------------------------------------------------------------

  /** A character's bytes (section 3 of RFC 3629). */
  function Encoded(c: char): seq<int> {
    var n := c as int;
    if n <= 0x7F then [n]
    else if n <= 0x7FF then [0xC0 + n / 0x40, 0x80 + n % 0x40]
    else if n <= 0xFFFF then [0xE0 + n / 0x1000, 0x80 + n / 0x40 % 0x40, 0x80 + n % 0x40]
    else [0xF0 + n / 0x40000, 0x80 + n / 0x1000 % 0x40, 0x80 + n / 0x40 % 0x40, 0x80 + n % 0x40]
  }

  function Utf8(s: string): seq<int> {
    if s == "" then [] else Utf8(s[..|s| - 1]) + Encoded(s[|s| - 1])
  }

  /** The length that is limited is the length in UTF-8. */
  lemma {:induction false} BytesAreCounted(s: string)
    ensures Bytes(s) == |Utf8(s)|
    ensures forall i :: 0 <= i < |Utf8(s)| ==> 0 <= Utf8(s)[i] <= 0xFF
  {
    if s != "" {
      BytesAreCounted(s[..|s| - 1]);
    }
  }

  // Lines -----------------------------------------------------------------------------------

  /** The lines of a text, read from its start. */
  function ReadLines(text: string): seq<string> {
    if text == "" then []
    else if text[0] == '\n' then [""] + ReadLines(text[1..])
    else
      var rest := ReadLines(text[1..]);
      if rest == [] then [[text[0]]] else [[text[0]] + rest[0]] + rest[1..]
  }

  lemma {:induction false} OneLineFirst(line: string, rest: string)
    requires '\n' !in line
    ensures ReadLines(line + ['\n'] + rest) == [line] + ReadLines(rest)
  {
    var text := line + ['\n'] + rest;
    if line == "" {
      assert text[1..] == rest;
    } else {
      assert text[0] == line[0] && line[0] in line && text[1..] == line[1..] + ['\n'] + rest;
      OneLineFirst(line[1..], rest);
      assert [line[0]] + line[1..] == line;
    }
  }

  lemma {:induction false} UnlinesFirst(line: string, lines: seq<string>)
    ensures Unlines([line] + lines) == line + ['\n'] + Unlines(lines)
  {
    if lines == [] {
      assert [line] + lines == [line] && [line][..0] == [];
    } else {
      assert ([line] + lines)[..|lines|] == [line] + lines[..|lines| - 1];
      UnlinesFirst(line, lines[..|lines| - 1]);
    }
  }

  ghost predicate Unbroken(lines: seq<string>) {
    forall i :: 0 <= i < |lines| ==> '\n' !in lines[i]
  }

  /** Lines without line feeds are read back one by one. */
  lemma {:induction false} LinesAreReadBack(lines: seq<string>)
    requires Unbroken(lines)
    ensures ReadLines(Unlines(lines)) == lines
  {
    if lines != [] {
      assert lines == [lines[0]] + lines[1..];
      UnlinesFirst(lines[0], lines[1..]);
      LinesAreReadBack(lines[1..]);
      OneLineFirst(lines[0], Unlines(lines[1..]));
    }
  }

  // Layout ----------------------------------------------------------------------------------

  /** An item's line: its priority, its key in at least 18 columns, and its message. */
  function ItemText(item: Item): string {
    var key := Sanitize(item.key);
    "  [" + (if item.priority == High then "p1" else "p2") + "] " + key + Spaces(if |key| < 18 then 18 - |key| else 0)
    + " " + Sanitize(item.message)
  }

  /** A title under an empty line, and the section's items under it. */
  function Block(title: string, items: seq<Item>): seq<string> {
    if |items| == 0 then [] else ["", title] + seq(|items|, i requires 0 <= i < |items| => ItemText(items[i]))
  }

  function Heading(config: Config, stamp: Stamp, pulse: string, rateLimited: bool, p: Priority): seq<string> {
    [if p == High then "bmacevent bmacp1" else "bmacevent bmacp2",
     Sanitize("BMAC event cluster=" + config.cluster + " node=" + config.node + " role=" + config.role
              + " pulse=" + pulse),
     "time=" + stamp + " agent=2.1.1"]
    + if rateLimited then ["pulse rate limit reached" + "; some changes were merged"] else []
  }

  function Omitted(omitted: nat): seq<string> {
    if omitted == 0 then []
    else ["", "(" + Decimal(omitted) + (" more items omitted; see " + "show_monitoring_state.sh)")]
  }

  function Layout(heading: seq<string>, inc: Included, omitted: nat): seq<string> {
    heading + Block("NEW", inc.news) + Block("REMINDER", inc.reminders) + Block("RESOLVED", inc.resolved)
    + Block("ONGOING", inc.ongoing) + Omitted(omitted)
  }

  lemma ItemLineIs(item: Item)
    ensures ItemLine(item) == ItemText(item)
  {
    var key := Sanitize(item.key);
    var pad := Spaces(if |key| < 18 then 18 - |key| else 0);
    assert Gap(|key|) == pad + " ";
    var bullet := "  [" + Tag(item.priority) + "] ";
    assert bullet + (key + (pad + " " + Sanitize(item.message))) == bullet + key + pad + " " + Sanitize(item.message);
  }

  lemma BlockIs(section: Section, title: string, items: seq<Item>)
    requires title == match section case New => "NEW" case Reminder => "REMINDER"
                                    case Resolved => "RESOLVED" case Ongoing => "ONGOING"
    ensures SectionLines(section, items) == Block(title, items)
  {
    forall i | 0 <= i < |items| ensures ItemLines(items)[i] == ItemText(items[i]) {
      ItemLineIs(items[i]);
    }
  }

  lemma HeadingIs(config: Config, stamp: Stamp, pulse: string, rateLimited: bool, p: Priority)
    ensures [FirstLine(p)] + HeaderLines(config, stamp, pulse, rateLimited)
            == Heading(config, stamp, pulse, rateLimited, p)
  {
    assert EVENT + [' '] + P1 == "bmacevent bmacp1" && EVENT + [' '] + P2 == "bmacevent bmacp2";
    assert "time=" + stamp + AGENT == "time=" + stamp + " agent=2.1.1";
    var event := Sanitize(EventText(config, pulse));
    assert [FirstLine(p)] + ([event] + [TimeLine(stamp)] + (if rateLimited then [MERGED] else []))
      == [FirstLine(p), event, TimeLine(stamp)] + (if rateLimited then [MERGED] else []);
  }

  lemma OmittedIs(omitted: nat)
    ensures OmittedLines(omitted) == Omitted(omitted)
  {
    assert OmittedLine(omitted) == "(" + Decimal(omitted) + (" more items omitted; see " + "show_monitoring_state.sh)");
  }

  lemma InFront(first: seq<string>, header: seq<string>, a: seq<string>, b: seq<string>, c: seq<string>, d: seq<string>,
                e: seq<string>)
    ensures first + (header + a + b + c + d + e) == first + header + a + b + c + d + e
  {
  }

  lemma LayoutIs(config: Config, stamp: Stamp, pulse: string, rateLimited: bool, p: Priority, inc: Included,
                 omitted: nat)
    ensures [FirstLine(p)] + BodyLines(HeaderLines(config, stamp, pulse, rateLimited), inc, omitted)
            == Layout(Heading(config, stamp, pulse, rateLimited, p), inc, omitted)
  {
    HeadingIs(config, stamp, pulse, rateLimited, p);
    BlockIs(New, "NEW", inc.news);
    BlockIs(Reminder, "REMINDER", inc.reminders);
    BlockIs(Resolved, "RESOLVED", inc.resolved);
    BlockIs(Ongoing, "ONGOING", inc.ongoing);
    OmittedIs(omitted);
    InFront([FirstLine(p)], HeaderLines(config, stamp, pulse, rateLimited), SectionLines(New, inc.news),
            SectionLines(Reminder, inc.reminders), SectionLines(Resolved, inc.resolved),
            SectionLines(Ongoing, inc.ongoing), OmittedLines(omitted));
  }

  lemma CleanIsUnbroken(s: string)
    requires NoControls(s)
    ensures '\n' !in s
  {
  }

  lemma ItemTextIsUnbroken(item: Item)
    ensures '\n' !in ItemText(item)
  {
    SanitizeIsClean(item.key);
    SanitizeIsClean(item.message);
    var key := Sanitize(item.key);
    CleanIsUnbroken(key);
    CleanIsUnbroken(Sanitize(item.message));
  }

  lemma BlockIsUnbroken(title: string, items: seq<Item>)
    requires '\n' !in title
    ensures Unbroken(Block(title, items))
  {
    forall i | 0 <= i < |items| ensures '\n' !in ItemText(items[i]) {
      ItemTextIsUnbroken(items[i]);
    }
  }

  lemma TimeIsUnbroken(stamp: Stamp)
    ensures '\n' !in "time=" + stamp + " agent=2.1.1"
  {
    forall i | 0 <= i < |stamp| ensures stamp[i] != '\n' {
      assert stamp[i] in "0123456789-:TZ";
    }
  }

  lemma HeadingIsUnbroken(config: Config, stamp: Stamp, pulse: string, rateLimited: bool, p: Priority)
    ensures Unbroken(Heading(config, stamp, pulse, rateLimited, p))
  {
    var text := "BMAC event cluster=" + config.cluster + " node=" + config.node + " role=" + config.role
        + " pulse=" + pulse;
    SanitizeIsClean(text);
    CleanIsUnbroken(Sanitize(text));
    TimeIsUnbroken(stamp);
    assert '\n' !in "bmacevent bmacp1" && '\n' !in "bmacevent bmacp2";
    assert '\n' !in "pulse rate limit reached" && '\n' !in "; some changes were merged";
    ThreeUnbroken(if p == High then "bmacevent bmacp1" else "bmacevent bmacp2", Sanitize(text),
                  "time=" + stamp + " agent=2.1.1");
  }

  lemma ThreeUnbroken(a: string, b: string, c: string)
    requires '\n' !in a && '\n' !in b && '\n' !in c
    ensures Unbroken([a, b, c])
  {
  }

  lemma OmittedIsUnbroken(omitted: nat)
    ensures Unbroken(Omitted(omitted))
  {
    var digits := Decimal(omitted);
    assert '\n' !in " more items omitted; see " && '\n' !in "show_monitoring_state.sh)";
    forall i | 0 <= i < |digits| ensures digits[i] != '\n' {
      assert digits[i] in DIGITS;
    }
  }

  lemma LayoutIsUnbroken(heading: seq<string>, inc: Included, omitted: nat)
    requires Unbroken(heading)
    ensures Unbroken(Layout(heading, inc, omitted))
  {
    BlockIsUnbroken("NEW", inc.news);
    BlockIsUnbroken("REMINDER", inc.reminders);
    BlockIsUnbroken("RESOLVED", inc.resolved);
    BlockIsUnbroken("ONGOING", inc.ongoing);
    OmittedIsUnbroken(omitted);
  }

  /** A body reads as its heading, the four sections in order, each item under the title
      of its section, and the number of those left out. */
  lemma ABodyReadsAs(config: Config, stamp: Stamp, pulse: string, rateLimited: bool, p: Priority, inc: Included,
                     omitted: nat)
    ensures ReadLines(Render(p, HeaderLines(config, stamp, pulse, rateLimited), inc, omitted))
            == Layout(Heading(config, stamp, pulse, rateLimited, p), inc, omitted)
  {
    var lines := BodyLines(HeaderLines(config, stamp, pulse, rateLimited), inc, omitted);
    LayoutIs(config, stamp, pulse, rateLimited, p, inc, omitted);
    HeadingIsUnbroken(config, stamp, pulse, rateLimited, p);
    LayoutIsUnbroken(Heading(config, stamp, pulse, rateLimited, p), inc, omitted);
    RenderIsLines(p, HeaderLines(config, stamp, pulse, rateLimited), inc, omitted);
    LinesAreReadBack([FirstLine(p)] + lines);
  }

  lemma RenderIsLines(p: Priority, header: seq<string>, inc: Included, omitted: nat)
    ensures Render(p, header, inc, omitted) == Unlines([FirstLine(p)] + BodyLines(header, inc, omitted))
  {
    var rest := Unlines(BodyLines(header, inc, omitted));
    UnlinesFirst(FirstLine(p), BodyLines(header, inc, omitted));
    assert FirstLine(p) + (['\n'] + rest) == FirstLine(p) + ['\n'] + rest;
  }
}
