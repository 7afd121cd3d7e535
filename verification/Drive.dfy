/** The text of a VM's scsi0 setting: a volume and comma-separated options, one of
    them the size (switched_drive and format_size of
    scripts/host_runtime/instant_switch.py).
 */
module Drive {
  import opened Common
  import opened Text

  // Comma-separated text ---------------------------------------------------------------

  function Split(s: string): (parts: seq<string>)
    ensures parts != [] && forall p :: p in parts ==> ',' !in p
  {
    if s == "" then [""]
    else
      var rest := Split(s[1..]);
      if s[0] == ',' then [""] + rest else [[s[0]] + rest[0]] + rest[1..]
  }

  function Join(parts: seq<string>): string
    requires parts != []
  {
    if |parts| == 1 then parts[0] else parts[0] + "," + Join(parts[1..])
  }

  lemma {:induction false} SplitStart(p: string, rest: string)
    requires ',' !in p
    ensures Split(p + "," + rest) == [p] + Split(rest)
  {
    var s := p + "," + rest;
    if p == "" {
      assert s[1..] == rest;
    } else {
      assert s[1..] == p[1..] + "," + rest;
      assert p[0] in p;
      SplitStart(p[1..], rest);
      assert [p[0]] + p[1..] == p;
      assert Split(s) == [[p[0]] + p[1..]] + Split(rest);
    }
  }

  lemma {:induction false} SplitOne(p: string)
    requires ',' !in p
    ensures Split(p) == [p]
  {
    if p != "" {
      assert p[0] in p;
      SplitOne(p[1..]);
      assert [p[0]] + p[1..] == p;
    }
  }

  lemma {:induction false} SplitJoin(parts: seq<string>)
    requires parts != [] && forall p :: p in parts ==> ',' !in p
    ensures Split(Join(parts)) == parts
  {
    if |parts| == 1 {
      SplitOne(parts[0]);
    } else {
      SplitJoin(parts[1..]);
      SplitStart(parts[0], Join(parts[1..]));
    }
  }

  lemma {:induction false} JoinSplit(s: string)
    ensures Join(Split(s)) == s
  {
    if s != "" {
      JoinSplit(s[1..]);
      var rest := Split(s[1..]);
      if s[0] == ',' {
        assert ([""] + rest)[1..] == rest;
        assert s == "" + "," + s[1..];
      } else {
        var parts := [[s[0]] + rest[0]] + rest[1..];
        assert parts[1..] == rest[1..];
        assert s == [s[0]] + s[1..];
      }
    }
  }

  // Sizes ---------------------------------------------------------------------------------

  const TEBI := 0x100_0000_0000
  const GIBI := 0x4000_0000
  const MEBI := 0x10_0000
  const KIBI := 0x400

  function FormatSize(size: nat): string {
    if size % TEBI == 0 then Decimal(size / TEBI) + "T"
    else if size % GIBI == 0 then Decimal(size / GIBI) + "G"
    else if size % MEBI == 0 then Decimal(size / MEBI) + "M"
    else if size % KIBI == 0 then Decimal(size / KIBI) + "K"
    else Decimal(size)
  }

  function Unit(c: char): nat {
    match c
    case 'T' => 1024 * 1024 * 1024 * 1024
    case 'G' => 1024 * 1024 * 1024
    case 'M' => 1024 * 1024
    case 'K' => 1024
    case _ => 1
  }

  /** What a size text means to its reader. */
  function SizeOf(s: string): Option<nat> {
    if s == "" then None
    else if Digits(s) then Some(ValueOf(s))
    else if Digits(s[..|s| - 1]) && Unit(s[|s| - 1]) > 1 then Some(ValueOf(s[..|s| - 1]) * Unit(s[|s| - 1]))
    else None
  }

  lemma Exactly(size: nat, unit: nat)
    requires unit > 0 && size % unit == 0
    ensures size / unit * unit == size
  {
  }

  lemma SuffixReads(size: nat, c: char)
    requires c == 'T' || c == 'G' || c == 'M' || c == 'K'
    requires size % Unit(c) == 0
    ensures SizeOf(Decimal(size / Unit(c)) + [c]) == Some(size)
  {
    var n := size / Unit(c);
    var s := Decimal(n) + [c];
    assert s[..|s| - 1] == Decimal(n);
    assert s[|s| - 1] !in DIGITS;
    DecimalReadsBack(n);
    Exactly(size, Unit(c));
  }

  /** A formatted size reads back as the exact byte count. */
  lemma FormatSizeReadsBack(size: nat)
    ensures SizeOf(FormatSize(size)) == Some(size)
  {
    if size % TEBI == 0 {
      SuffixReads(size, 'T');
    } else if size % GIBI == 0 {
      SuffixReads(size, 'G');
    } else if size % MEBI == 0 {
      SuffixReads(size, 'M');
    } else if size % KIBI == 0 {
      SuffixReads(size, 'K');
    } else {
      DecimalReadsBack(size);
    }
  }

  /** Its unit is the largest that divides the size. */
  lemma TheUnitIsTheLargest(size: nat, c: char)
    requires size % Unit(c) == 0
    ensures var s := FormatSize(size); s != "" && Unit(s[|s| - 1]) >= Unit(c)
  {
    var s := FormatSize(size);
    if s[|s| - 1] != 'T' && s[|s| - 1] != 'G' && s[|s| - 1] != 'M' && s[|s| - 1] != 'K' {
      assert size % KIBI != 0;
    }
  }

  lemma FormatSizeHasNoComma(size: nat)
    ensures ',' !in FormatSize(size)
  {
    assert ',' !in DIGITS;
  }

  // Switching a drive to another volume -----------------------------------------------------

  predicate IsSize(option: string) {
    "size=" <= option
  }

  function CountSizes(options: seq<string>): nat {
    if options == [] then 0 else (if IsSize(options[0]) then 1 else 0) + CountSizes(options[1..])
  }

  function Resized(options: seq<string>, size: string): (r: seq<string>)
    ensures |r| == |options|
    ensures forall i :: 0 <= i < |options| ==> r[i] == if IsSize(options[i]) then "size=" + size else options[i]
  {
    if options == [] then []
    else [if IsSize(options[0]) then "size=" + size else options[0]] + Resized(options[1..], size)
  }

  /** The setting that names another volume of another size; refused unless it has exactly
      one size. */
  function SwitchedDrive(drive: string, target: string, size: nat): Option<string> {
    var options := Split(drive)[1..];
    if CountSizes(options) != 1 then None else Some(Join([target] + Resized(options, FormatSize(size))))
  }

  lemma {:induction false} ResizedCounts(options: seq<string>, size: string)
    ensures CountSizes(Resized(options, size)) == CountSizes(options)
  {
    if options != [] {
      ResizedCounts(options[1..], size);
      assert Resized(options, size)[1..] == Resized(options[1..], size);
      assert IsSize("size=" + size);
    }
  }

  lemma ResizedTwice(options: seq<string>, a: string, b: string)
    ensures Resized(Resized(options, a), b) == Resized(options, b)
  {
    assert IsSize("size=" + a);
  }

  predicate NoCommas(parts: seq<string>) {
    forall i :: 0 <= i < |parts| ==> ',' !in parts[i]
  }

  lemma ResizedNoCommas(options: seq<string>, size: string)
    requires NoCommas(options) && ',' !in size
    ensures NoCommas(Resized(options, size))
  {
    assert ',' !in "size=";
    assert ',' !in "size=" + size;
  }

  lemma SwitchedSplits(drive: string, target: string, size: nat)
    requires ',' !in target && CountSizes(Split(drive)[1..]) == 1
    ensures Split(SwitchedDrive(drive, target, size).value) == [target] + Resized(Split(drive)[1..], FormatSize(size))
  {
    var options := Split(drive)[1..];
    FormatSizeHasNoComma(size);
    forall i | 0 <= i < |options| ensures ',' !in options[i] {
      assert options[i] in Split(drive);
    }
    ResizedNoCommas(options, FormatSize(size));
    SplitJoin([target] + Resized(options, FormatSize(size)));
  }

  predicate OnlySize(options: seq<string>, i: int) {
    0 <= i < |options| && "size=" <= options[i] && forall j :: 0 <= j < |options| && j != i ==> !("size=" <= options[j])
  }

  lemma {:induction false} NoneCounted(options: seq<string>)
    ensures CountSizes(options) == 0 <==> forall i :: 0 <= i < |options| ==> !("size=" <= options[i])
  {
    if options != [] {
      NoneCounted(options[1..]);
      assert forall i :: 0 < i < |options| ==> options[i] == options[1..][i - 1];
    }
  }

  lemma {:induction false} OneCounted(options: seq<string>)
    ensures CountSizes(options) == 1 <==> exists i :: OnlySize(options, i)
  {
    if options != [] {
      var rest := options[1..];
      NoneCounted(rest);
      OneCounted(rest);
      assert forall i :: 0 < i < |options| ==> options[i] == rest[i - 1];
      if "size=" <= options[0] {
        assert CountSizes(rest) == 0 ==> OnlySize(options, 0);
        if i :| OnlySize(options, i) {
          assert i == 0;
        }
      } else {
        if i :| OnlySize(rest, i) {
          assert OnlySize(options, i + 1);
        }
        if i :| OnlySize(options, i) {
          assert OnlySize(rest, i - 1);
        }
      }
    }
  }

  lemma SwitchedIff(drive: string, target: string, size: nat)
    ensures SwitchedDrive(drive, target, size).Some? <==> exists i :: OnlySize(Split(drive)[1..], i)
  {
    OneCounted(Split(drive)[1..]);
  }

  /** The switched drive names the new volume, keeps every other option in its place,
      and has the one size, the device's. */
  lemma SwitchedDriveKeepsTheOptions(drive: string, target: string, size: nat)
    requires ',' !in target
    ensures SwitchedDrive(drive, target, size).Some? <==> exists i :: OnlySize(Split(drive)[1..], i)
    ensures var d := SwitchedDrive(drive, target, size);
            d.Some? ==>
              var was, now := Split(drive), Split(d.value);
              && now[0] == target && |now| == |was|
              && (forall i :: 1 <= i < |was| ==>
                    now[i] == if "size=" <= was[i] then "size=" + FormatSize(size) else was[i])
  {
    var options := Split(drive)[1..];
    SwitchedIff(drive, target, size);
    if CountSizes(options) == 1 {
      SwitchedSplits(drive, target, size);
      assert forall i :: 1 <= i < |options| + 1 ==> Split(drive)[i] == options[i - 1];
    }
  }

  /** Switching once more forgets the first switch, so the way back is the way there. */
  lemma SwitchingTwice(drive: string, target: string, size: nat, other: string, otherSize: nat)
    requires ',' !in target && CountSizes(Split(drive)[1..]) == 1
    ensures SwitchedDrive(SwitchedDrive(drive, target, size).value, other, otherSize)
            == SwitchedDrive(drive, other, otherSize)
  {
    var options := Split(drive)[1..];
    SwitchedSplits(drive, target, size);
    ResizedCounts(options, FormatSize(size));
    ResizedTwice(options, FormatSize(size), FormatSize(otherSize));
    assert Split(SwitchedDrive(drive, target, size).value)[1..] == Resized(options, FormatSize(size));
  }
}
