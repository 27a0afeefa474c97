/**
 pkg/bundle/internal/directory/userns.go: reading subordinate ID ranges (subuid(5)) and building the
 rootless user namespace's mappings. IDs are 32-bit in the code; here they are natural numbers and
 the absence of overflow is proved.
 */
module UserNamespace {
  import opened Prelude
  import opened Text

  const MAX_ID := 0xFFFF_FFFF

  /** The longest line bufio.Scanner accepts, without its newline. */
  const MAX_LINE := 65535

  datatype Mapping = Mapping(containerId: nat, hostId: nat, size: nat)

  datatype Namespace = Namespace(uid: seq<Mapping>, gid: seq<Mapping>)

  datatype Error = InvalidEntry | InvalidRange | LineTooLong | Unreadable | OnlyOneFile

  /** /etc/subuid or /etc/subgid as read. */
  datatype IdFile = Absent | Broken | Present(text: string)

  // ------------------------------------------------------------------
  // Decimal numbers
  // ------------------------------------------------------------------

  function Digit(d: nat): char
    requires d < 10
  {
    "0123456789"[d]
  }

  predicate IsDigit(c: char) {
    '0' <= c <= '9'
  }

  function DigitValue(c: char): nat
    requires IsDigit(c)
  {
    c as int - '0' as int
  }

  /** strconv.FormatUint(n, 10). */
  function Decimal(n: nat): string {
    if n < 10 then [Digit(n)] else Decimal(n / 10) + [Digit(n % 10)]
  }

  function AllDigits(s: string): bool {
    s == "" || (IsDigit(s[|s| - 1]) && AllDigits(s[..|s| - 1]))
  }

  function Value(s: string): nat
    requires AllDigits(s)
  {
    if s == "" then 0 else 10 * Value(s[..|s| - 1]) + DigitValue(s[|s| - 1])
  }

  /** strconv.ParseUint(s, 10, 32); None stands for its error. */
  function ParseUint(s: string): Option<nat> {
    if s == "" || !AllDigits(s) || Value(s) > MAX_ID then None else Some(Value(s))
  }

  lemma {:induction false} DecimalParses(n: nat)
    ensures Decimal(n) != "" && AllDigits(Decimal(n)) && Value(Decimal(n)) == n
  {
    if n < 10 {
      assert Decimal(n)[..0] == "";
    } else {
      DecimalParses(n / 10);
      assert Decimal(n)[..|Decimal(n)| - 1] == Decimal(n / 10);
    }
  }

  /** Formatting and parsing are inverse on 32-bit numbers; larger ones are refused. */
  lemma ParsesBack(n: nat)
    ensures ParseUint(Decimal(n)) == if n <= MAX_ID then Some(n) else None
  {
    DecimalParses(n);
  }

  lemma {:induction false} DigitsOnly(s: string, i: nat)
    requires AllDigits(s) && i < |s|
    ensures IsDigit(s[i])
  {
    if i < |s| - 1 {
      DigitsOnly(s[..|s| - 1], i);
    }
  }

  // ------------------------------------------------------------------
  // One file
  // ------------------------------------------------------------------

  /** The scanner's lines: no line follows a final newline. */
  function Lines(text: string): seq<string> {
    var parts := Split(text, '\n');
    if Last(parts) == "" then Init(parts) else parts
  }

  /** bufio.ScanLines drops one carriage return. */
  function WithoutReturn(line: string): string {
    if line != "" && line[|line| - 1] == '\r' then line[..|line| - 1] else line
  }

  function Entry(line: string): string {
    TrimSpace(WithoutReturn(line))
  }

  /** The first field is the account's name or its number. */
  predicate Names(entry: string, name: string, account: nat) {
    var owner := Split(entry, ':')[0];
    (name != "" && owner == name) || owner == Decimal(account)
  }

  /** Blank lines, comments and other accounts' entries. */
  predicate Skipped(line: string, name: string, account: nat) {
    var entry := Entry(line);
    entry == "" || entry[0] == '#' || !Names(entry, name, account)
  }

  /** A range the host can map beside the caller's own ID. */
  predicate Usable(start: nat, count: nat, own: nat) {
    0 < start && 0 < count && start + count <= MAX_ID && !(start <= own < start + count)
  }

  function ParseEntry(entry: string, own: nat): Result<Mapping, Error> {
    var fields := Split(entry, ':');
    if |fields| != 3 then Failed(InvalidEntry)
    else
      var start, count := ParseUint(fields[1]), ParseUint(fields[2]);
      if start.Some? && count.Some? && Usable(start.value, count.value, own)
      then Done(Mapping.Mapping(1, start.value, count.value))
      else Failed(InvalidRange)
  }

  /** The first entry of the account decides; a line that is too long ends the reading. */
  function Range(lines: seq<string>, name: string, account: nat, own: nat): Result<Option<Mapping>, Error> {
    if lines == [] then Done(None)
    else if |lines[0]| > MAX_LINE then Failed(LineTooLong)
    else if Skipped(lines[0], name, account) then Range(lines[1..], name, account, own)
    else
      match ParseEntry(Entry(lines[0]), own)
      case Done(mapping) => Done(Some(mapping))
      case Failed(error) => Failed(error)
  }

  method SubordinateRange(
      data: string, name: string, account: nat, own: nat)
    returns (r: Result<Option<Mapping>, Error>)
    ensures r == Range(Lines(data), name, account, own)
  {
    var rest := Lines(data);
    while rest != []
      invariant Range(rest, name, account, own) == Range(Lines(data), name, account, own)
      decreases |rest|
    {
      if |rest[0]| > MAX_LINE {
        return Failed(LineTooLong);
      }
      var line := TrimSpace(WithoutReturn(rest[0]));
      if line == "" || line[0] == '#' {
        rest := rest[1..];
        continue;
      }
      var fields := Split(line, ':');
      if (name == "" || fields[0] != name) && fields[0] != Decimal(account) {
        rest := rest[1..];
        continue;
      }
      if |fields| != 3 {
        return Failed(InvalidEntry);
      }
      var start, count := ParseUint(fields[1]), ParseUint(fields[2]);
      if start.None? || count.None? || start.value == 0 || count.value == 0
         || start.value + count.value > MAX_ID || (own >= start.value && own < start.value + count.value) {
        return Failed(InvalidRange);
      }
      return Done(Some(Mapping.Mapping(1, start.value, count.value)));
    }
    return Done(None);
  }

  /** Whatever the text, an accepted range starts at container ID 1 and is usable. */
  lemma {:induction false} AcceptedRange(lines: seq<string>, name: string, account: nat, own: nat)
    requires Range(lines, name, account, own).Done? && Range(lines, name, account, own).value.Some?
    ensures
      var m := Range(lines, name, account, own).value.value;
      && m.containerId == 1 && 0 < m.hostId && 0 < m.size
      && m.hostId + m.size <= 4294967295 && !(m.hostId <= own < m.hostId + m.size)
  {
    if Skipped(lines[0], name, account) {
      AcceptedRange(lines[1..], name, account, own);
    }
  }

  /** The answer is that of the first line that is too long or names the account, and no range when there is none. */
  lemma {:induction false} FirstLineDecides(lines: seq<string>, name: string, account: nat, own: nat, k: nat)
    requires k <= |lines|
    requires forall i | 0 <= i < k :: |lines[i]| <= MAX_LINE && Skipped(lines[i], name, account)
    requires k < |lines| ==> |lines[k]| > MAX_LINE || !Skipped(lines[k], name, account)
    ensures Range(lines, name, account, own) ==
      if k == |lines| then Done(None) else Range([lines[k]], name, account, own)
  {
    if k > 0 {
      assert forall i | 0 <= i < k - 1 :: lines[1..][i] == lines[i + 1];
      FirstLineDecides(lines[1..], name, account, own, k - 1);
    } else if k < |lines| {
      assert [lines[0]][0] == lines[0];
    }
  }

  predicate PlainName(name: string) {
    name != "" && ':' !in name && name[0] != '#' && Trimmed(name)
  }

  lemma NoColons(n: nat)
    ensures ':' !in Decimal(n) && Trimmed(Decimal(n)) && Decimal(n) != ""
  {
    DecimalParses(n);
    forall i | 0 <= i < |Decimal(n)| ensures IsDigit(Decimal(n)[i]) {
      DigitsOnly(Decimal(n), i);
    }
  }

  lemma Regrouped(a: string, b: string, c: string)
    ensures a + ":" + b + ":" + c == a + [':'] + (b + [':'] + c)
  {
  }

  lemma ThreeFields(a: string, b: string, c: string)
    requires ':' !in a && ':' !in b && ':' !in c
    ensures Split(a + ":" + b + ":" + c, ':') == [a, b, c]
  {
    SplitHead(b, c, ':');
    SplitHead(a, b + [':'] + c, ':');
    Regrouped(a, b, c);
    assert Split(c, ':') == [c];
    assert [a] + ([b] + [c]) == [a, b, c];
  }

  lemma NumberIsPlain(n: nat)
    ensures PlainName(Decimal(n))
  {
    NoColons(n);
    DecimalParses(n);
    DigitsOnly(Decimal(n), 0);
  }

  lemma LinesHead(line: string, text: string)
    requires '\n' !in line
    ensures Lines(line + "\n" + text) == [line] + Lines(text)
  {
    SplitHead(line, text, '\n');
    InitAndLast([line], Split(text, '\n'));
  }

  /** A line that ends in other than white space is its own entry. */
  lemma EntryOfTrimmed(line: string)
    requires line != "" && Trimmed(line)
    ensures Entry(line) == line
  {
    TrimSpaceKeeps(line);
  }

  lemma OwnerStays(owner: string, tail: string, m: nat)
    requires |owner| < m <= |owner + ":" + tail|
    ensures (owner + ":" + tail)[..m] == owner + ":" + tail[..m - |owner| - 1]
  {
  }

  /** White space at the end of the line may go, the owner and its colon stay. */
  lemma EntryKeepsOwner(owner: string, tail: string) returns (n: nat)
    requires PlainName(owner)
    ensures n <= |tail| && Entry(owner + ":" + tail) == owner + ":" + tail[..n] && Blank(tail[n..])
  {
    var line := owner + ":" + tail;
    var w := WithoutReturn(line);
    var r := TrimRight(w);
    assert w[0] == owner[0] && w[|owner|] == ':';
    TrimRightCuts(w);
    assert forall j | |r| <= j < |w| :: w[j] == w[|r|..][j - |r|];
    assert r == line[..|r|];
    n := |r| - |owner| - 1;
    OwnerStays(owner, tail, |r|);
    forall j | 0 <= j < |tail[n..]| ensures IsSpace(tail[n..][j]) {
      assert tail[n..][j] == line[|r| + j];
    }
  }

  lemma SamePieces(kept: string, blank: string)
    requires Blank(blank)
    ensures |Split(kept + blank, ':')| == |Split(kept, ':')|
  {
    var last := Last(Split(kept, ':'));
    SplitContinues(kept, blank, ':');
    SplitIsSeparation(kept, ':');
    assert ':' !in last + blank;
    assert Split(last + blank, ':') == [last + blank];
  }

  /** The owner is the first field; without white space at its end the tail has as many fields as with it. */
  lemma OwnersFields(entry: string, owner: string, tail: string, n: nat)
    requires PlainName(owner) && n <= |tail| && Blank(tail[n..]) && entry == owner + ":" + tail[..n]
    ensures entry != "" && entry[0] != '#'
    ensures Split(entry, ':')[0] == owner && |Split(entry, ':')| == 1 + |Split(tail, ':')|
  {
    SplitHead(owner, tail[..n], ':');
    assert tail == tail[..n] + tail[n..];
    SamePieces(tail[..n], tail[n..]);
  }

  /** Whatever follows its colon, a line of another owner is passed over. */
  lemma OthersArePassedOver(
      owner: string, tail: string, rest: seq<string>, name: string, account: nat, own: nat)
    requires PlainName(owner) && owner != name && owner != Decimal(account) && |owner + ":" + tail| <= 65535
    ensures Range([owner + ":" + tail] + rest, name, account, own) == Range(rest, name, account, own)
  {
    var n := EntryKeepsOwner(owner, tail);
    OwnersFields(Entry(owner + ":" + tail), owner, tail, n);
    assert ([owner + ":" + tail] + rest)[1..] == rest;
  }

  lemma DecidingLine(line: string, rest: seq<string>, name: string, account: nat, own: nat)
    requires |line| <= MAX_LINE && !Skipped(line, name, account)
    ensures Range([line] + rest, name, account, own) ==
      match ParseEntry(Entry(line), own)
      case Done(mapping) => Done(Some(mapping))
      case Failed(error) => Failed(error)
  {
  }

  /** A line of the account without three fields is an error, and so is any line over the scanner's limit. */
  lemma FaultyLines(owner: string, tail: string, rest: seq<string>, name: string, account: nat, own: nat)
    requires PlainName(owner) && (owner == name || owner == Decimal(account)) && |Split(tail, ':')| != 2
    ensures Range([owner + ":" + tail] + rest, name, account, own) ==
      Failed(if |owner + ":" + tail| <= 65535 then InvalidEntry else LineTooLong)
  {
    var line := owner + ":" + tail;
    if |line| <= 65535 {
      var n := EntryKeepsOwner(owner, tail);
      OwnersFields(Entry(line), owner, tail, n);
      DecidingLine(line, rest, name, account, own);
    }
  }

  lemma {:induction false} TrimLeftTo(s: string, i: nat)
    requires i < |s| && Blank(s[..i]) && !IsSpace(s[i])
    ensures TrimLeft(s) == s[i..]
  {
    if i == 0 {
    } else {
      assert IsSpace(s[..i][0]) && s[..i][0] == s[0];
      assert s[1..][..i - 1] == s[..i][1..];
      TrimLeftTo(s[1..], i - 1);
      assert s[1..][i - 1..] == s[i..];
    }
  }

  lemma TrimRightFirst(s: string)
    requires s != "" && !IsSpace(s[0])
    ensures TrimRight(s) != "" && TrimRight(s)[0] == s[0]
  {
    var r := TrimRight(s);
    TrimRightCuts(s);
    assert forall j | |r| <= j < |s| :: s[j] == s[|r|..][j - |r|];
  }

  lemma FirstBlack(line: string, i: nat)
    requires i < |line| && Blank(line[..i]) && !IsSpace(line[i])
    ensures Entry(line) != "" && Entry(line)[0] == line[i]
  {
    var w := WithoutReturn(line);
    assert i < |w| && w[i] == line[i] && w[..i] == line[..i];
    TrimLeftTo(w, i);
    TrimRightFirst(w[i..]);
  }

  /** Comments and blank lines are passed over. */
  lemma CommentsArePassedOver(line: string, rest: seq<string>, name: string, account: nat, own: nat)
    requires |line| <= 65535
    requires Blank(line) || exists i | 0 <= i < |line| :: Blank(line[..i]) && line[i] == '#'
    ensures Range([line] + rest, name, account, own) == Range(rest, name, account, own)
  {
    if Blank(line) {
      TrimSpaceTrims(WithoutReturn(line));
    } else {
      var i :| 0 <= i < |line| && Blank(line[..i]) && line[i] == '#';
      FirstBlack(line, i);
    }
    assert ([line] + rest)[1..] == rest;
  }

  /** An entry in the form the account tools write. */
  function Written(owner: string, start: nat, count: nat): string {
    owner + ":" + Decimal(start) + ":" + Decimal(count)
  }

  lemma WrittenParses(owner: string, start: nat, count: nat)
    requires PlainName(owner)
    ensures Entry(Written(owner, start, count)) == Written(owner, start, count)
    ensures Split(Written(owner, start, count), ':') == [owner, Decimal(start), Decimal(count)]
  {
    var line := Written(owner, start, count);
    NoColons(start);
    NoColons(count);
    ThreeFields(owner, Decimal(start), Decimal(count));
    assert line[|line| - 1] == Decimal(count)[|Decimal(count)| - 1] && line[0] == owner[0];
    EntryOfTrimmed(line);
  }

  lemma WrittenIsParsed(owner: string, start: nat, count: nat, own: nat)
    requires PlainName(owner)
    ensures ParseEntry(Written(owner, start, count), own) ==
      if 0 < start && 0 < count && start + count <= 4294967295 && !(start <= own < start + count)
      then Done(Mapping.Mapping(1, start, count)) else Failed(InvalidRange)
  {
    WrittenParses(owner, start, count);
    ParsesBack(start);
    ParsesBack(count);
  }

  /**
   An entry of the account, under its name or its number, decides whatever follows: it is accepted
   exactly when its range has 32 bits, is not empty and spares the caller's own ID.
   */
  lemma WrittenEntry(
      owner: string, start: nat, count: nat, rest: seq<string>, name: string, account: nat, own: nat)
    requires PlainName(owner) && (owner == name || owner == Decimal(account))
    requires |Written(owner, start, count)| <= 65535
    ensures Range([Written(owner, start, count)] + rest, name, account, own) ==
      if 0 < start && 0 < count && start + count <= 4294967295 && !(start <= own < start + count)
      then Done(Some(Mapping.Mapping(1, start, count))) else Failed(InvalidRange)
  {
    WrittenParses(owner, start, count);
    WrittenIsParsed(owner, start, count, own);
    DecidingLine(Written(owner, start, count), rest, name, account, own);
  }

  /** The number alone is enough, whatever the account is called. */
  lemma NumberDecides(start: nat, count: nat, rest: seq<string>, name: string, account: nat, own: nat)
    requires |Written(Decimal(account), start, count)| <= 65535
    ensures Range([Written(Decimal(account), start, count)] + rest, name, account, own) ==
      if 0 < start && 0 < count && start + count <= 4294967295 && !(start <= own < start + count)
      then Done(Some(Mapping.Mapping(1, start, count))) else Failed(InvalidRange)
  {
    NumberIsPlain(account);
    WrittenEntry(Decimal(account), start, count, rest, name, account, own);
  }

  /** Another account's entry grants nothing, wherever it stands. */
  lemma OthersGrantNothing(
      owner: string, start: nat, count: nat, rest: seq<string>, name: string, account: nat, own: nat)
    requires PlainName(owner) && owner != name && owner != Decimal(account)
    requires |Written(owner, start, count)| <= 65535
    ensures Range([Written(owner, start, count)] + rest, name, account, own) == Range(rest, name, account, own)
  {
    var tail := Decimal(start) + ":" + Decimal(count);
    assert Written(owner, start, count) == owner + ":" + tail;
    OthersArePassedOver(owner, tail, rest, name, account, own);
  }

  // ------------------------------------------------------------------
  // The namespace
  // ------------------------------------------------------------------

  function Reading(file: IdFile, account: Option<string>, number: nat, own: nat): Result<Option<Mapping>, Error> {
    match file
    case Absent => Done(None)
    case Broken => Failed(Unreadable)
    case Present(text) => Range(Lines(text), if account.Some? then account.value else "", number, own)
  }

  /** The caller's own ID as container root, and the range the file grants, if any. */
  function Maps(own: nat, granted: Option<Mapping>): seq<Mapping> {
    [Mapping.Mapping(0, own, 1)] + if granted.Some? then [granted.value] else []
  }

  /** The first faulty file decides; then both files must grant a range or neither. */
  function Combined(uid: nat, gid: nat, users: Result<Option<Mapping>, Error>, groups: Result<Option<Mapping>, Error>):
    Result<Namespace, Error>
  {
    if users.Failed? then Failed(users.error)
    else if groups.Failed? then Failed(groups.error)
    else if users.value.Some? != groups.value.Some? then Failed(OnlyOneFile)
    else Done(Namespace.Namespace(Maps(uid, users.value), Maps(gid, groups.value)))
  }

  method CurrentUserNamespace(uid: nat, gid: nat, account: Option<string>, subuid: IdFile, subgid: IdFile)
    returns (r: Result<Namespace, Error>)
    ensures r == Combined(uid, gid, Reading(subuid, account, uid, uid), Reading(subgid, account, uid, gid))
  {
    var ns := Namespace.Namespace([Mapping.Mapping(0, uid, 1)], [Mapping.Mapping(0, gid, 1)]);
    var name := if account.Some? then account.value else "";
    ghost var users, groups := Reading(subuid, account, uid, uid), Reading(subgid, account, uid, gid);
    for i := 0 to 2
      invariant ns.uid ==
        if i == 0 then [Mapping.Mapping(0, uid, 1)] else if users.Done? then Maps(uid, users.value) else []
      invariant ns.gid ==
        if i < 2 then [Mapping.Mapping(0, gid, 1)] else if groups.Done? then Maps(gid, groups.value) else []
      invariant (i > 0 ==> users.Done?) && (i == 2 ==> groups.Done?)
    {
      assert [Mapping.Mapping(0, uid, 1)] + [] == [Mapping.Mapping(0, uid, 1)];
      assert [Mapping.Mapping(0, gid, 1)] + [] == [Mapping.Mapping(0, gid, 1)];
      var file, own := if i == 0 then subuid else subgid, if i == 0 then uid else gid;
      if file.Broken? {
        return Failed(Unreadable);
      }
      if file.Present? {
        var mapping := SubordinateRange(file.text, name, uid, own);
        if mapping.Failed? {
          return Failed(mapping.error);
        }
        if mapping.value.Some? {
          var granted := [mapping.value.value];
          ns := if i == 0 then ns.(uid := ns.uid + granted) else ns.(gid := ns.gid + granted);
        }
      }
    }
    if (|ns.uid| > 1) != (|ns.gid| > 1) {
      return Failed(OnlyOneFile);
    }
    return Done(ns);
  }

  predicate MapsOk(maps: seq<Mapping>, own: nat) {
    && 1 <= |maps| <= 2
    && maps[0] == Mapping.Mapping(0, own, 1)
    && (|maps| == 2 ==> maps[1].containerId == 1 && Usable(maps[1].hostId, maps[1].size, own))
  }

  /** Both files or neither, container root is the caller. */
  predicate Accepted(ns: Namespace, uid: nat, gid: nat) {
    MapsOk(ns.uid, uid) && MapsOk(ns.gid, gid) && |ns.uid| == |ns.gid|
  }

  lemma ReadingIsUsable(file: IdFile, account: Option<string>, number: nat, own: nat)
    requires Reading(file, account, number, own).Done?
    ensures MapsOk(Maps(own, Reading(file, account, number, own).value), own)
  {
    var granted := Reading(file, account, number, own).value;
    if granted.Some? {
      AcceptedRange(Lines(file.text), if account.Some? then account.value else "", number, own);
    }
  }

  /** Whatever the files hold, an accepted namespace is well formed. */
  lemma CombinedIsAccepted(uid: nat, gid: nat, account: Option<string>, subuid: IdFile, subgid: IdFile)
    ensures
      var r := Combined(uid, gid, Reading(subuid, account, uid, uid), Reading(subgid, account, uid, gid));
      r.Done? ==> Accepted(r.value, uid, gid)
  {
    var users, groups := Reading(subuid, account, uid, uid), Reading(subgid, account, uid, gid);
    if users.Done? && groups.Done? {
      ReadingIsUsable(subuid, account, uid, uid);
      ReadingIsUsable(subgid, account, uid, gid);
    }
  }

  // ------------------------------------------------------------------
  // What the mappings mean
  // ------------------------------------------------------------------

  predicate Covers(m: Mapping, id: nat) {
    m.containerId <= id < m.containerId + m.size
  }

  /** The host ID the kernel gives to a container ID. */
  function HostId(maps: seq<Mapping>, id: nat): Option<nat> {
    if maps == [] then None
    else if Covers(maps[0], id) then Some(maps[0].hostId + (id - maps[0].containerId))
    else HostId(maps[1..], id)
  }

  /** processUserIDMappedInNamespace: the membership test of provisioner.go. */
  method IsMapped(id: nat, maps: seq<Mapping>) returns (mapped: bool)
    ensures mapped <==> HostId(maps, id).Some?
  {
    for i := 0 to |maps|
      invariant HostId(maps, id) == HostId(maps[i..], id)
    {
      if id >= maps[i].containerId && id < maps[i].containerId + maps[i].size {
        return true;
      }
    }
    return false;
  }

  lemma HostIdOfAccepted(maps: seq<Mapping>, own: nat, id: nat)
    requires MapsOk(maps, own)
    ensures HostId(maps, id) ==
      if id == 0 then Some(own)
      else if |maps| == 2 && id <= maps[1].size then Some(maps[1].hostId + id - 1)
      else None
  {
    assert maps == [maps[0]] + maps[1..];
    if |maps| == 2 {
      assert maps[1..] == [maps[1]] && maps[1..][1..] == [];
      assert HostId(maps[1..], id) == if Covers(maps[1], id) then Some(maps[1].hostId + (id - 1)) else None;
    } else {
      assert maps[1..] == [];
    }
  }

  /** Accepted mappings send 0 to the caller, never overflow 32 bits and never share a host ID. */
  lemma MappingsAreInjective(maps: seq<Mapping>, own: nat, a: nat, b: nat)
    requires MapsOk(maps, own) && own <= MAX_ID
    ensures HostId(maps, 0) == Some(own)
    ensures HostId(maps, a).Some? ==> HostId(maps, a).value <= MAX_ID
    ensures HostId(maps, a).Some? && HostId(maps, a) == HostId(maps, b) ==> a == b
  {
    HostIdOfAccepted(maps, own, 0);
    HostIdOfAccepted(maps, own, a);
    HostIdOfAccepted(maps, own, b);
  }

  /** Exactly the container IDs 0 to the granted count are mapped. */
  lemma MappedExactly(maps: seq<Mapping>, own: nat, id: nat)
    requires MapsOk(maps, own)
    ensures HostId(maps, id).Some? <==> id <= if |maps| == 2 then maps[1].size else 0
  {
    HostIdOfAccepted(maps, own, id);
  }
}
