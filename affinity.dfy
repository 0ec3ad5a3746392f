/** Recognisers for the three affinity options the proxy context validates,
    each written by hand instead of with a regular-expression engine:

      read-affinity              ^r\d+z?(\d+)?=\d+(,\s?r\d+z?(\d+)?=\d+)*$
      write-affinity             ^r\d+(,\s?r\d+)*$
      write-affinity-node-count  ^\d+(\s\*\sreplicas)?$

    Each language is defined by its parse trees and how they are written out
    (`ListText`, `NodeCountText`); each recogniser is proved to accept exactly
    the texts of valid trees. `\d` is an ASCII digit and `\s` is
    `Text.IsSpace`. Like Python's `$`, a match also succeeds when the text is
    followed by one final newline. */
module Affinity {
  import opened Wrappers
  import opened Text

  /** Which of the two list-shaped options is meant. */
  datatype Kind = ReadKind | WriteKind

  /** One term of an affinity list. In a read term `zone` is None when no 'z'
      follows the region digits, and Some(d) for 'z' followed by the digits d
      (possibly none, since `z?(\d+)?` allows a bare 'z'). */
  datatype Term =
    | ReadTerm(region: string, zone: Option<string>, priority: string)
    | WriteTerm(region: string)

  /** `,` then at most one whitespace character, then a term. */
  datatype Link = Link(space: Option<char>, term: Term)

  datatype AffinityList = AffinityList(head: Term, tail: seq<Link>)

  predicate ValidTerm(kind: Kind, t: Term) {
    && |t.region| > 0 && AllDigits(t.region)
    && match t
       case ReadTerm(_, zone, priority) =>
         kind == ReadKind && (zone.Some? ==> AllDigits(zone.value)) && |priority| > 0 && AllDigits(priority)
       case WriteTerm(_) => kind == WriteKind
  }

  predicate ValidLink(kind: Kind, l: Link) {
    ValidTerm(kind, l.term) && (l.space.Some? ==> IsSpace(l.space.value))
  }

  predicate ValidLinks(kind: Kind, ls: seq<Link>) {
    ls == [] || (ValidLink(kind, ls[0]) && ValidLinks(kind, ls[1..]))
  }

  predicate ValidList(kind: Kind, a: AffinityList) {
    ValidTerm(kind, a.head) && ValidLinks(kind, a.tail)
  }

  function ZoneText(zone: Option<string>): string {
    match zone
    case None => ""
    case Some(d) => "z" + d
  }

  function TermText(t: Term): (s: string)
    ensures |s| > 0 && s[0] == 'r'
  {
    match t
    case ReadTerm(region, zone, priority) => "r" + region + ZoneText(zone) + "=" + priority
    case WriteTerm(region) => "r" + region
  }

  function SpaceText(space: Option<char>): string {
    match space
    case None => ""
    case Some(c) => [c]
  }

  function LinksText(ls: seq<Link>): (s: string)
    ensures s == [] || s[0] == ','
  {
    if ls == [] then ""
    else LinkText(ls[0]) + LinksText(ls[1..])
  }

  function ListText(a: AffinityList): string {
    TermText(a.head) + LinksText(a.tail)
  }

  /** The texts the pattern of `kind` describes (without the final-newline allowance). */
  ghost predicate InLanguage(kind: Kind, s: string) {
    exists a :: ValidList(kind, a) && ListText(a) == s
  }

  // ---------------------------------------------------------------------------
  // Parsing

  /** Reads the character `tag` and then the longest run of digits (maybe
      none) at the front of `s`; returns the digits and what follows. */
  function ParseTagged(tag: char, s: string): (r: Option<(string, string)>)
    ensures r.Some? ==> |s| == 1 + |r.value.0| + |r.value.1|
    ensures r.None? <==> s == [] || s[0] != tag
  {
    if s == [] || s[0] != tag then None
    else
      var n := DigitRun(s[1..]);
      Some((s[1..][..n], s[1..][n..]))
  }

  lemma ParseTaggedSound(tag: char, s: string)
    requires ParseTagged(tag, s).Some?
    ensures var (d, rest) := ParseTagged(tag, s).value;
      AllDigits(d) && s == [tag] + d + rest && (rest == [] || !IsDigit(rest[0]))
  {
    var n := DigitRun(s[1..]);
    Unsplit(s, n);
  }

  /** `s` is its first character, then `n` more, then the rest. */
  lemma Unsplit(s: string, n: nat)
    requires s != [] && n <= |s| - 1
    ensures s == [s[0]] + s[1..][..n] + s[1..][n..]
  {
  }

  lemma ParseTaggedText(tag: char, d: string, rest: string)
    requires AllDigits(d)
    requires rest == [] || !IsDigit(rest[0])
    ensures ParseTagged(tag, [tag] + d + rest) == Some((d, rest))
  {
    DropPrefix([tag], d, rest);
    PrefixAndRest(d, rest);
    DigitRunOfDigits(d, rest);
  }

  /** Regroups the text of a read term followed by `after`. */
  lemma ReadTermText(region: string, zone: Option<string>, priority: string, after: string)
    ensures TermText(ReadTerm(region, zone, priority)) + after == "r" + region + (ZoneText(zone) + ("=" + priority + after))
  {
  }

  /** Reads one term at the front of `s`; returns it and what follows. */
  function ParseTerm(kind: Kind, s: string): (r: Option<(Term, string)>)
    ensures r.Some? ==> |r.value.1| < |s|
  {
    match ParseTagged('r', s)
    case None => None
    case Some((region, rest)) =>
      if region == [] then None
      else
        match kind
        case WriteKind => Some((WriteTerm(region), rest))
        case ReadKind =>
          var (zone, afterZone) :=
            match ParseTagged('z', rest)
            case None => (None, rest)
            case Some((d, after)) => (Some(d), after);
          match ParseTagged('=', afterZone)
          case None => None
          case Some((priority, after)) =>
            if priority == [] then None
            else Some((ReadTerm(region, zone, priority), after))
  }

  /** Whatever the term parser reads is a valid term written out. */
  lemma ParseTermSound(kind: Kind, s: string)
    requires ParseTerm(kind, s).Some?
    ensures var (t, rest) := ParseTerm(kind, s).value;
      ValidTerm(kind, t) && s == TermText(t) + rest
  {
    ParseTaggedSound('r', s);
    var (region, rest) := ParseTagged('r', s).value;
    if kind == ReadKind {
      var (zone, afterZone) :=
        match ParseTagged('z', rest)
        case None => (None, rest)
        case Some((d, after)) => (Some(d), after);
      if zone.Some? {
        ParseTaggedSound('z', rest);
      }
      assert rest == ZoneText(zone) + afterZone;
      ParseTaggedSound('=', afterZone);
      var (priority, after) := ParseTagged('=', afterZone).value;
      ReadTermText(region, zone, priority, after);
    }
  }

  /** The text of a valid term is read back as that term, up to the next ',' or the end. */
  lemma ParseTermText(kind: Kind, t: Term, rest: string)
    requires ValidTerm(kind, t)
    requires rest == [] || rest[0] == ','
    ensures ParseTerm(kind, TermText(t) + rest) == Some((t, rest))
  {
    match t
    case WriteTerm(region) =>
      ParseTaggedText('r', region, rest);
    case ReadTerm(region, zone, priority) =>
      var afterZone := "=" + priority + rest;
      var tail := ZoneText(zone) + afterZone;
      ReadTermText(region, zone, priority, rest);
      ParseZoneText(zone, afterZone);
      ParseTaggedText('r', region, tail);
      ParseTaggedText('=', priority, rest);
      ParseReadTermStep(TermText(t) + rest, region, tail, zone, afterZone, priority, rest);
  }

  /** One read term, from what the three tagged digit runs return. */
  lemma ParseReadTermStep(s: string, region: string, tail: string, zone: Option<string>,
                          afterZone: string, priority: string, rest: string)
    requires ParseTagged('r', s) == Some((region, tail)) && region != []
    requires ParseTagged('z', tail) == (if zone.None? then None else Some((zone.value, afterZone)))
    requires zone.None? ==> tail == afterZone
    requires ParseTagged('=', afterZone) == Some((priority, rest)) && priority != []
    ensures ParseTerm(ReadKind, s) == Some((ReadTerm(region, zone, priority), rest))
  {
  }

  /** After the region digits the parser finds the zone that was written, and
      the '=' that follows it. */
  lemma ParseZoneText(zone: Option<string>, afterZone: string)
    requires zone.Some? ==> AllDigits(zone.value)
    requires afterZone != [] && afterZone[0] == '='
    ensures var tail := ZoneText(zone) + afterZone;
      && tail != [] && !IsDigit(tail[0])
      && ParseTagged('z', tail) == (if zone.None? then None else Some((zone.value, afterZone)))
  {
    match zone
    case None =>
      assert ZoneText(zone) + afterZone == afterZone;
    case Some(d) =>
      assert ZoneText(zone) + afterZone == ['z'] + d + afterZone;
      ParseTaggedText('z', d, afterZone);
  }

  /** The `,` and the optional whitespace character that open a link. */
  function LinkPrefix(space: Option<char>): string {
    [','] + SpaceText(space)
  }

  function LinkText(l: Link): string {
    LinkPrefix(l.space) + TermText(l.term)
  }

  /** The whitespace character, if any, that follows the ',' at the front of `s`. */
  function SpaceAfterComma(s: string): (space: Option<char>)
    requires s != [] && s[0] == ','
    ensures |LinkPrefix(space)| <= |s|
    ensures space.Some? ==> IsSpace(space.value)
  {
    if |s| > 1 && IsSpace(s[1]) then Some(s[1]) else None
  }

  /** The link prefix the parser settles on is the front of `s`. */
  lemma SpaceAfterCommaPrefix(s: string)
    requires s != [] && s[0] == ','
    ensures s[..|LinkPrefix(SpaceAfterComma(s))|] == LinkPrefix(SpaceAfterComma(s))
  {
  }

  /** Before a term the parser finds exactly the whitespace character that was written. */
  lemma SpaceAfterCommaOfText(space: Option<char>, t: string, rest: string)
    requires |t| > 0 && t[0] == 'r'
    requires space.Some? ==> IsSpace(space.value)
    ensures var s := LinkPrefix(space) + t + rest;
      && s != [] && s[0] == ','
      && SpaceAfterComma(s) == space
      && s[|LinkPrefix(space)|..] == t + rest
  {
    DropPrefix(LinkPrefix(space), t, rest);
  }

  /** Reads the `(,\s?term)*` part of a list. */
  function ParseLinks(kind: Kind, s: string): (r: Option<seq<Link>>)
    decreases |s|
  {
    if s == [] then Some([])
    else if s[0] != ',' then None
    else
      var p := LinkPrefix(SpaceAfterComma(s));
      match ParseTerm(kind, s[|p|..])
      case None => None
      case Some((t, rest)) =>
        match ParseLinks(kind, rest)
        case None => None
        case Some(ls) => Some([Link(SpaceAfterComma(s), t)] + ls)
  }

  /** `s` is put back together from a prefix and the remainder after it. */
  lemma Reassemble(s: string, p: string, t: string, rest: string)
    requires |p| <= |s| && s[..|p|] == p && s[|p|..] == t + rest
    ensures s == p + t + rest
  {
    assert s == s[..|p|] + s[|p|..];
  }

  /** Whatever the links parser reads is a sequence of valid links written out. */
  lemma {:induction false} ParseLinksSound(kind: Kind, s: string)
    requires ParseLinks(kind, s).Some?
    ensures ValidLinks(kind, ParseLinks(kind, s).value) && LinksText(ParseLinks(kind, s).value) == s
    decreases |s|
  {
    if s != [] {
      var space := SpaceAfterComma(s);
      var p := LinkPrefix(space);
      SpaceAfterCommaPrefix(s);
      ParseTermSound(kind, s[|p|..]);
      var (t, rest) := ParseTerm(kind, s[|p|..]).value;
      ParseLinksSound(kind, rest);
      var ls := ParseLinks(kind, rest).value;
      Reassemble(s, p, TermText(t), rest);
      var links := [Link(space, t)] + ls;
      assert links[1..] == ls;
      assert ParseLinks(kind, s).value == links;
    }
  }

  lemma {:induction false} ParseLinksText(kind: Kind, ls: seq<Link>)
    requires ValidLinks(kind, ls)
    ensures ParseLinks(kind, LinksText(ls)) == Some(ls)
    decreases |ls|
  {
    if ls != [] {
      var l, rest := ls[0], LinksText(ls[1..]);
      var t, p := TermText(l.term), LinkPrefix(l.space);
      var s := p + t + rest;
      assert LinksText(ls) == s;
      ParseTermText(kind, l.term, rest);
      ParseLinksText(kind, ls[1..]);
      SpaceAfterCommaOfText(l.space, t, rest);
      ParseLinksStep(kind, s, l.space, l.term, rest, ls[1..]);
      HeadTail(ls);
    }
  }

  lemma HeadTail(ls: seq<Link>)
    requires ls != []
    ensures [ls[0]] + ls[1..] == ls
  {
  }

  /** One round of the links parser. */
  lemma ParseLinksStep(kind: Kind, s: string, space: Option<char>, t: Term, rest: string, ls: seq<Link>)
    requires s != [] && s[0] == ',' && SpaceAfterComma(s) == space
    requires ParseTerm(kind, s[|LinkPrefix(space)|..]) == Some((t, rest))
    requires ParseLinks(kind, rest) == Some(ls)
    ensures ParseLinks(kind, s) == Some([Link(space, t)] + ls)
  {
  }

  /** Reads a whole affinity list of the given kind. */
  function ParseList(kind: Kind, s: string): (r: Option<AffinityList>)
  {
    match ParseTerm(kind, s)
    case None => None
    case Some((head, rest)) =>
      match ParseLinks(kind, rest)
      case None => None
      case Some(tail) => Some(AffinityList(head, tail))
  }

  /** Whatever the list parser accepts is a valid list written out. */
  lemma ParseListSound(kind: Kind, s: string)
    requires ParseList(kind, s).Some?
    ensures ValidList(kind, ParseList(kind, s).value) && ListText(ParseList(kind, s).value) == s
  {
    ParseTermSound(kind, s);
    ParseLinksSound(kind, ParseTerm(kind, s).value.1);
  }

  /** Parsing the text of a valid list gives back that list. */
  lemma ParseListText(kind: Kind, a: AffinityList)
    requires ValidList(kind, a)
    ensures ParseList(kind, ListText(a)) == Some(a)
  {
    ParseTermText(kind, a.head, LinksText(a.tail));
    ParseLinksText(kind, a.tail);
  }

  /** The recogniser accepts exactly the language of the pattern. */
  lemma ParseListRecognises(kind: Kind, s: string)
    ensures ParseList(kind, s).Some? <==> InLanguage(kind, s)
  {
    if InLanguage(kind, s) {
      var a :| ValidList(kind, a) && ListText(a) == s;
      ParseListText(kind, a);
    }
    if ParseList(kind, s).Some? {
      ParseListSound(kind, s);
      var a := ParseList(kind, s).value;
      assert ValidList(kind, a) && ListText(a) == s;
    }
  }

  // ---------------------------------------------------------------------------
  // write-affinity-node-count

  /** `<count>` or `<count><space>*<space>replicas`. */
  datatype NodeCount = NodeCount(count: string, replicas: Option<(char, char)>)

  predicate ValidNodeCount(n: NodeCount) {
    && |n.count| > 0 && AllDigits(n.count)
    && (n.replicas.Some? ==> IsSpace(n.replicas.value.0) && IsSpace(n.replicas.value.1))
  }

  function ReplicasText(replicas: Option<(char, char)>): string {
    match replicas
    case None => ""
    case Some((a, b)) => [a, '*', b] + "replicas"
  }

  function NodeCountText(n: NodeCount): string {
    n.count + ReplicasText(n.replicas)
  }

  ghost predicate InNodeCountLanguage(s: string) {
    exists n :: ValidNodeCount(n) && NodeCountText(n) == s
  }

  function ParseNodeCount(s: string): (r: Option<NodeCount>)
    ensures r.Some? ==> ValidNodeCount(r.value) && NodeCountText(r.value) == s
  {
    var k := DigitRun(s);
    if k == 0 then None
    else
      var count, rest := s[..k], s[k..];
      SplitAt(s, k);
      if rest == [] then Some(NodeCount(count, None))
      else if |rest| == 11 && IsSpace(rest[0]) && IsSpace(rest[2]) && rest == [rest[0], '*', rest[2]] + "replicas" then
        Some(NodeCount(count, Some((rest[0], rest[2]))))
      else None
  }

  lemma ParseNodeCountText(n: NodeCount)
    requires ValidNodeCount(n)
    ensures ParseNodeCount(NodeCountText(n)) == Some(n)
  {
    var s := NodeCountText(n);
    var rest := ReplicasText(n.replicas);
    DigitRunOfDigits(n.count, rest);
    PrefixAndRest(n.count, rest);
  }

  lemma ParseNodeCountRecognises(s: string)
    ensures ParseNodeCount(s).Some? <==> InNodeCountLanguage(s)
  {
    if InNodeCountLanguage(s) {
      var n :| ValidNodeCount(n) && NodeCountText(n) == s;
      ParseNodeCountText(n);
    }
    if ParseNodeCount(s).Some? {
      var n := ParseNodeCount(s).value;
      assert ValidNodeCount(n) && NodeCountText(n) == s;
    }
  }

  // ---------------------------------------------------------------------------
  // re.match with ^...$

  /** `s` is `body` followed by the single final newline Python's `$` allows. */
  predicate NewlineEnded(s: string) {
    s != [] && s[|s| - 1] == '\n'
  }

  function Chomp(s: string): string
    requires NewlineEnded(s)
  {
    s[..|s| - 1]
  }

  /** `re.match` of the affinity pattern of `kind` against `s`. */
  function MatchesAffinity(kind: Kind, s: string): (b: bool)
    ensures b <==> InLanguage(kind, s) || (NewlineEnded(s) && InLanguage(kind, Chomp(s)))
  {
    ParseListRecognises(kind, s);
    if NewlineEnded(s) then ParseListRecognises(kind, Chomp(s)); ParseList(kind, s).Some? || ParseList(kind, Chomp(s)).Some?
    else ParseList(kind, s).Some?
  }

  /** `re.match` of the node-count pattern against `s`. */
  function MatchesNodeCount(s: string): (b: bool)
    ensures b <==> InNodeCountLanguage(s) || (NewlineEnded(s) && InNodeCountLanguage(Chomp(s)))
  {
    ParseNodeCountRecognises(s);
    if NewlineEnded(s) then ParseNodeCountRecognises(Chomp(s)); ParseNodeCount(s).Some? || ParseNodeCount(Chomp(s)).Some?
    else ParseNodeCount(s).Some?
  }
}
