/**
 Grouping radio channels of the NIFOG releases by category. `leq` stands for the comparison of titles
 in the reader's language.
 */
module NifogGroups {
  import opened Basics

  datatype Release = Release(id: string, nifog: bool, name: string, version: string)

  datatype Channel = Channel(id: string, release: Release, section: string, channelUse: string, band: string, pages: string)

  datatype Group = Group(key: string, title: string, channels: seq<Channel>)

  type Order = (string, string) -> bool

  /** The key and the title of a channel. */
  type TextOf = Channel -> string

  ghost predicate IsTotalPreorder(leq: Order) {
    (forall a, b :: leq(a, b) || leq(b, a)) && forall a, b, c :: leq(a, b) && leq(b, c) ==> leq(a, c)
  }

  // ---------------------------------------------------------------------------------------------
  // Categories
  // ---------------------------------------------------------------------------------------------

  /** The white space and line ends of ECMAScript, which are removed around a text. */
  predicate IsWhite(c: char) {
    var code := c as int;
    || 0x9 <= code <= 0xD || code in {0x20, 0xA0, 0x1680, 0x202F, 0x205F, 0x3000, 0xFEFF}
    || 0x2000 <= code <= 0x200A || 0x2028 <= code <= 0x2029
  }

  function TrimStart(s: string): string {
    if s != "" && IsWhite(s[0]) then TrimStart(s[1..]) else s
  }

  function TrimEnd(s: string): (t: string)
    ensures t <= s
  {
    if s != "" && IsWhite(s[|s| - 1]) then TrimEnd(s[..|s| - 1]) else s
  }

  function Trim(s: string): string {
    TrimEnd(TrimStart(s))
  }

  function CategoryTitle(c: Channel): string {
    if Trim(c.section) != "" then Trim(c.section)
    else if Trim(c.channelUse) != "" then Trim(c.channelUse)
    else if Trim(c.band) != "" then Trim(c.band) + " interoperability channels"
    else "Other NIFOG channels"
  }

  const SEPARATOR := "::"

  function Joined(id: string, title: string): string {
    id + (SEPARATOR + title)
  }

  function CategoryKey(c: Channel): string {
    Joined(c.release.id, CategoryTitle(c))
  }

  /** A text that does not begin or end with white space, and is not empty. */
  predicate IsTitle(t: string) {
    t != "" && !IsWhite(t[0]) && !IsWhite(t[|t| - 1])
  }

  lemma {:induction false} TrimStartStopsAtText(s: string)
    ensures TrimStart(s) == "" || !IsWhite(TrimStart(s)[0])
  {
    if s != "" && IsWhite(s[0]) {
      TrimStartStopsAtText(s[1..]);
    }
  }

  lemma {:induction false} TrimEndStopsAtText(s: string)
    ensures TrimEnd(s) == "" || !IsWhite(TrimEnd(s)[|TrimEnd(s)| - 1])
  {
    if s != "" && IsWhite(s[|s| - 1]) {
      TrimEndStopsAtText(s[..|s| - 1]);
    }
  }

  lemma TrimmedIsTitle(s: string)
    ensures Trim(s) == "" || IsTitle(Trim(s))
    ensures IsTitle(s) ==> Trim(s) == s
  {
    TrimStartStopsAtText(s);
    TrimEndStopsAtText(TrimStart(s));
  }

  /** A line end, or white space in the narrow sense: three controls, the byte order mark, and the space separators. */
  ghost predicate IsEcmaWhite(c: char) {
    || c == '\n' || c == '\r' || c as int == 0x2028 || c as int == 0x2029
    || c == '\t' || c as int == 11 || c as int == 12 || c as int == 0xFEFF
    || c == ' ' || c as int == 0xA0 || c as int == 0x1680 || c as int == 0x202F || c as int == 0x205F || c as int == 0x3000
    || 0x1FFF < c as int < 0x200B
  }

  lemma WhiteExactly(c: char)
    ensures IsWhite(c) <==> IsEcmaWhite(c)
  {
  }

  ghost predicate AllWhite(s: string) {
    forall i | 0 <= i < |s| :: IsEcmaWhite(s[i])
  }

  /** White space, the text, and white space; the text begins and ends with something else. */
  ghost predicate IsTrimmed(s: string, t: string) {
    t != "" && !IsEcmaWhite(t[0]) && !IsEcmaWhite(t[|t| - 1])
    && exists front, back | AllWhite(front) && AllWhite(back) :: s == front + t + back
  }

  lemma {:induction false} StartIsWhite(s: string) returns (front: string)
    ensures AllWhite(front) && s == front + TrimStart(s)
  {
    front := "";
    if s != "" && IsWhite(s[0]) {
      WhiteExactly(s[0]);
      front := StartIsWhite(s[1..]);
      front := [s[0]] + front;
    }
  }

  lemma {:induction false} EndIsWhite(s: string) returns (back: string)
    ensures AllWhite(back) && s == TrimEnd(s) + back
  {
    back := "";
    if s != "" && IsWhite(s[|s| - 1]) {
      WhiteExactly(s[|s| - 1]);
      back := EndIsWhite(s[..|s| - 1]);
      back := back + [s[|s| - 1]];
    }
  }

  lemma AllWhiteTogether(a: string, b: string)
    requires AllWhite(a) && AllWhite(b)
    ensures AllWhite(a + b)
  {
  }

  /** A text of white space is trimmed to nothing, and any other to what stands between the white space around it. */
  lemma TrimExactly(s: string)
    ensures if AllWhite(s) then Trim(s) == "" else IsTrimmed(s, Trim(s))
  {
    var front := StartIsWhite(s);
    var back := EndIsWhite(TrimStart(s));
    TrimmedIsTitle(s);
    if Trim(s) == "" {
      assert TrimStart(s) == back;
      AllWhiteTogether(front, back);
    } else {
      WhiteExactly(Trim(s)[0]);
      WhiteExactly(Trim(s)[|Trim(s)| - 1]);
      Basics.Regrouped(front, Trim(s), back);
      assert s[|front|] == Trim(s)[0];
    }
  }

  /**
   The title of a channel: its section, else its use, else its band with two words behind it, else three
   words; each without white space around it, and passed over if nothing is left.
   */
  lemma CategoryExactly(c: Channel)
    ensures !AllWhite(c.section) ==> IsTrimmed(c.section, CategoryTitle(c))
    ensures AllWhite(c.section) && !AllWhite(c.channelUse) ==> IsTrimmed(c.channelUse, CategoryTitle(c))
    ensures AllWhite(c.section) && AllWhite(c.channelUse) && !AllWhite(c.band) ==>
              exists band | IsTrimmed(c.band, band) :: CategoryTitle(c) == band + " interoperability channels"
    ensures AllWhite(c.section) && AllWhite(c.channelUse) && AllWhite(c.band) ==> CategoryTitle(c) == "Other NIFOG channels"
    ensures CategoryKey(c) == c.release.id + "::" + CategoryTitle(c)
  {
    TrimExactly(c.section);
    TrimExactly(c.channelUse);
    TrimExactly(c.band);
    assert c.release.id + ("::" + CategoryTitle(c)) == c.release.id + "::" + CategoryTitle(c);
  }

  /** A NIFOG channel of this release in this section. */
  function InSection(id: string, section: string): Channel {
    Channel("", Release(id, true, "", ""), section, "", "", "")
  }

  /** The titles of channels are exactly the non-empty texts without white space around them. */
  lemma TitlesAre(t: string)
    ensures (exists c :: CategoryTitle(c) == t) <==> IsTitle(t)
  {
    forall c ensures IsTitle(CategoryTitle(c)) {
      TrimmedIsTitle(c.section);
      TrimmedIsTitle(c.channelUse);
      TrimmedIsTitle(c.band);
    }
    if IsTitle(t) {
      assert CategoryTitle(InSection("", t)) == t by {
        TrimmedIsTitle(t);
      }
    }
  }

  lemma InOwnSection(id: string, title: string)
    requires IsTitle(title)
    ensures CategoryKey(InSection(id, title)) == Joined(id, title)
  {
    TrimmedIsTitle(title);
  }

  predicate Collide(c: Channel, d: Channel) {
    c.release.nifog && d.release.nifog && CategoryKey(c) == CategoryKey(d)
  }

  /** One id with the separator begins the other with it, and what is left over can begin a title. */
  predicate CanCollide(a: string, b: string) {
    a + SEPARATOR <= b + SEPARATOR && var left := (b + SEPARATOR)[|a + SEPARATOR|..]; left == "" || !IsWhite(left[0])
  }

  lemma LeftOver(a: string, t: string, b: string, u: string)
    requires a + t == b + u && |a| <= |b|
    ensures a <= b && t == b[|a|..] + u
  {
    assert a == (a + t)[..|a|] == (b + u)[..|a|] == b[..|a|];
    assert t == (a + t)[|a|..] == (b + u)[|a|..] == b[|a|..] + u;
  }

  lemma SameText(a: string, t: string, b: string, u: string)
    requires (a + SEPARATOR) + t == (b + SEPARATOR) + u
    ensures Joined(a, t) == Joined(b, u)
  {
    assert Joined(a, t) == (a + SEPARATOR) + t && Joined(b, u) == (b + SEPARATOR) + u;
  }

  lemma CanCollideDoes(a: string, b: string)
    requires CanCollide(a, b)
    ensures var t := (b + SEPARATOR)[|a + SEPARATOR|..] + "t"; Collide(InSection(a, t), InSection(b, "t"))
  {
    var left := (b + SEPARATOR)[|a + SEPARATOR|..];
    var t := left + "t";
    assert (a + SEPARATOR) + t == ((a + SEPARATOR) + left) + "t" && (a + SEPARATOR) + left == b + SEPARATOR;
    InOwnSection(a, t);
    InOwnSection(b, "t");
    SameText(a, t, b, "t");
  }

  lemma JoinedAlike(a: string, t: string, b: string, u: string)
    requires IsTitle(t) && IsTitle(u) && Joined(a, t) == Joined(b, u) && |a| <= |b|
    ensures CanCollide(a, b)
  {
    assert Joined(a, t) == (a + SEPARATOR) + t && Joined(b, u) == (b + SEPARATOR) + u;
    LeftOver(a + SEPARATOR, t, b + SEPARATOR, u);
  }

  lemma CollidingCan(c: Channel, d: Channel)
    requires Collide(c, d)
    ensures CanCollide(c.release.id, d.release.id) || CanCollide(d.release.id, c.release.id)
  {
    var t, u := CategoryTitle(c), CategoryTitle(d);
    TitlesAre(t);
    TitlesAre(u);
    if |c.release.id| <= |d.release.id| {
      JoinedAlike(c.release.id, t, d.release.id, u);
    } else {
      JoinedAlike(d.release.id, u, c.release.id, t);
    }
  }

  ghost predicate SomeCollide(a: string, b: string) {
    exists c: Channel, d: Channel :: c.release.id == a && d.release.id == b && Collide(c, d)
  }

  /** Channels of two releases can share a category key exactly under that condition on the ids. */
  lemma KeysCanCollideExactly(a: string, b: string)
    ensures SomeCollide(a, b) <==> CanCollide(a, b) || CanCollide(b, a)
  {
    if SomeCollide(a, b) {
      var c: Channel, d: Channel :| c.release.id == a && d.release.id == b && Collide(c, d);
      CollidingCan(c, d);
    }
    if CanCollide(a, b) {
      CanCollideDoes(a, b);
    } else if CanCollide(b, a) {
      CanCollideDoes(b, a);
    }
  }

  lemma ColonFreeIsFirst(a: string, t: string, b: string, u: string)
    requires ':' !in a && ':' !in b && Joined(a, t) == Joined(b, u)
    ensures |a| == |b|
  {
    var key, other := Joined(a, t), Joined(b, u);
    assert key[|a|] == ':' && other[|b|] == ':';
    assert forall i | 0 <= i < |a| :: key[i] == a[i] && a[i] in a;
    assert forall i | 0 <= i < |b| :: other[i] == b[i] && b[i] in b;
  }

  /** Ids without a colon, such as UUIDs, are told apart by their keys. */
  lemma ColonFreeIdsAreToldApart(c: Channel, d: Channel)
    requires ':' !in c.release.id && ':' !in d.release.id && CategoryKey(c) == CategoryKey(d)
    ensures c.release.id == d.release.id && CategoryTitle(c) == CategoryTitle(d)
  {
    var a, b, t, u := c.release.id, d.release.id, CategoryTitle(c), CategoryTitle(d);
    ColonFreeIsFirst(a, t, b, u);
    assert a == Joined(a, t)[..|a|] && b == Joined(b, u)[..|b|];
    assert t == Joined(a, t)[|a| + 2..] && u == Joined(b, u)[|b| + 2..];
  }

  lemma ColonMoves(id: string, title: string)
    ensures Joined(id + ":", title) == Joined(id, ":" + title)
  {
    assert (id + ":") + (SEPARATOR + title) == id + (SEPARATOR + (":" + title));
  }

  /** That no id contains the separator does not tell them apart: one may end with a colon. */
  lemma TrailingColonCollides(id: string, title: string)
    requires IsTitle(title)
    ensures Collide(InSection(id + ":", title), InSection(id, ":" + title))
  {
    assert IsTitle(":" + title);
    InOwnSection(id + ":", title);
    InOwnSection(id, ":" + title);
    ColonMoves(id, title);
  }

  // ---------------------------------------------------------------------------------------------
  // The groups
  // ---------------------------------------------------------------------------------------------

  predicate Belongs(keyOf: TextOf, c: Channel, key: string) {
    c.release.nifog && keyOf(c) == key
  }

  /** The NIFOG channels with this key, in the order of the list. */
  function Members(keyOf: TextOf, channels: seq<Channel>, key: string): seq<Channel> {
    if channels == [] then []
    else
      var front, c := channels[..|channels| - 1], channels[|channels| - 1];
      Members(keyOf, front, key) + (if Belongs(keyOf, c, key) then [c] else [])
  }

  function Others(channels: seq<Channel>): seq<Channel> {
    if channels == [] then []
    else
      var front, c := channels[..|channels| - 1], channels[|channels| - 1];
      Others(front) + (if c.release.nifog then [] else [c])
  }

  /** The other channels stay in their order, and a NIFOG channel is never among them. */
  lemma {:induction false} OthersInOrder(a: seq<Channel>, b: seq<Channel>, c: Channel)
    ensures Others(a + b) == Others(a) + Others(b)
    ensures Others([c]) == if c.release.nifog then [] else [c]
  {
    assert [c][..0] == [];
    if b == [] {
      assert a + b == a;
    } else {
      assert (a + b)[..|a + b| - 1] == a + b[..|b| - 1];
      OthersInOrder(a, b[..|b| - 1], c);
    }
  }

  /** The keys of the NIFOG channels, in the order in which they come up. */
  function Keys(keyOf: TextOf, channels: seq<Channel>): seq<string> {
    if channels == [] then []
    else
      var front, c := channels[..|channels| - 1], channels[|channels| - 1];
      var keys := Keys(keyOf, front);
      if c.release.nifog && keyOf(c) !in keys then keys + [keyOf(c)] else keys
  }

  predicate Distinct(keys: seq<string>) {
    keys == [] || (Distinct(keys[..|keys| - 1]) && keys[|keys| - 1] !in keys[..|keys| - 1])
  }

  lemma {:induction false} KeysAreDistinct(keyOf: TextOf, channels: seq<Channel>)
    ensures Distinct(Keys(keyOf, channels))
  {
    if channels != [] {
      var keys, c := Keys(keyOf, channels[..|channels| - 1]), channels[|channels| - 1];
      KeysAreDistinct(keyOf, channels[..|channels| - 1]);
      assert (keys + [keyOf(c)])[..|keys|] == keys;
    }
  }

  lemma {:induction false} KeysHaveMembers(keyOf: TextOf, channels: seq<Channel>, key: string)
    ensures key in Keys(keyOf, channels) <==> Members(keyOf, channels, key) != []
  {
    if channels != [] {
      KeysHaveMembers(keyOf, channels[..|channels| - 1], key);
    }
  }

  lemma {:induction false} MembersBelong(keyOf: TextOf, channels: seq<Channel>, key: string, c: Channel)
    ensures c in Members(keyOf, channels, key) <==> c in channels && Belongs(keyOf, c, key)
  {
    if channels != [] {
      MembersBelong(keyOf, channels[..|channels| - 1], key, c);
      assert channels == channels[..|channels| - 1] + [channels[|channels| - 1]];
    }
  }

  /** The group of a key takes its title from its first channel. */
  function GroupOf(keyOf: TextOf, titleOf: TextOf, channels: seq<Channel>, key: string): Group {
    var members := Members(keyOf, channels, key);
    Group(key, if members == [] then "" else titleOf(members[0]), members)
  }

  function GroupsOf(keyOf: TextOf, titleOf: TextOf, channels: seq<Channel>, keys: seq<string>): (groups: seq<Group>)
    ensures |groups| == |keys| && forall i | 0 <= i < |keys| :: groups[i] == GroupOf(keyOf, titleOf, channels, keys[i])
  {
    seq(|keys|, i requires 0 <= i < |keys| => GroupOf(keyOf, titleOf, channels, keys[i]))
  }

  function AllGroups(keyOf: TextOf, titleOf: TextOf, channels: seq<Channel>): seq<Group> {
    GroupsOf(keyOf, titleOf, channels, Keys(keyOf, channels))
  }

  // ---------------------------------------------------------------------------------------------
  // Stable sorting by title
  // ---------------------------------------------------------------------------------------------

  function Insert(leq: Order, groups: seq<Group>, g: Group): seq<Group> {
    if groups == [] || leq(groups[|groups| - 1].title, g.title) then groups + [g]
    else Insert(leq, groups[..|groups| - 1], g) + [groups[|groups| - 1]]
  }

  function Sort(leq: Order, groups: seq<Group>): seq<Group> {
    if groups == [] then [] else Insert(leq, Sort(leq, groups[..|groups| - 1]), groups[|groups| - 1])
  }

  predicate AllAtMost(leq: Order, groups: seq<Group>, title: string) {
    forall g | g in groups :: leq(g.title, title)
  }

  /** Every group compares as at most every later one. */
  predicate IsSorted(leq: Order, groups: seq<Group>) {
    groups == [] || (IsSorted(leq, groups[..|groups| - 1])
      && AllAtMost(leq, groups[..|groups| - 1], groups[|groups| - 1].title))
  }

  /** The groups whose titles compare as equal to this one, in their order. */
  function Alike(leq: Order, groups: seq<Group>, title: string): seq<Group> {
    if groups == [] then []
    else
      var g := groups[|groups| - 1];
      Alike(leq, groups[..|groups| - 1], title) + (if leq(g.title, title) && leq(title, g.title) then [g] else [])
  }

  lemma {:induction false} InsertAdds(leq: Order, groups: seq<Group>, g: Group)
    ensures multiset(Insert(leq, groups, g)) == multiset(groups) + multiset{g}
  {
    if groups != [] && !leq(groups[|groups| - 1].title, g.title) {
      InsertAdds(leq, groups[..|groups| - 1], g);
      assert groups == groups[..|groups| - 1] + [groups[|groups| - 1]];
    }
  }

  lemma AtMostAll(leq: Order, groups: seq<Group>, title: string, top: string)
    requires IsTotalPreorder(leq) && AllAtMost(leq, groups, title) && leq(title, top)
    ensures AllAtMost(leq, groups, top)
  {
  }

  lemma {:induction false} InsertKeepsSorted(leq: Order, groups: seq<Group>, g: Group)
    requires IsTotalPreorder(leq) && IsSorted(leq, groups)
    ensures IsSorted(leq, Insert(leq, groups, g))
  {
    if groups != [] {
      var front, last := groups[..|groups| - 1], groups[|groups| - 1];
      assert groups == front + [last];
      if leq(last.title, g.title) {
        AtMostAll(leq, front, last.title, g.title);
        assert (groups + [g])[..|groups|] == groups;
      } else {
        var inner := Insert(leq, front, g);
        InsertKeepsSorted(leq, front, g);
        InsertAdds(leq, front, g);
        assert forall x :: x in inner ==> x in multiset(inner);
        assert (inner + [last])[..|inner|] == inner;
      }
    }
  }

  lemma {:induction false} InsertGoesBehindItsLike(leq: Order, groups: seq<Group>, g: Group, title: string)
    requires IsTotalPreorder(leq)
    ensures Alike(leq, Insert(leq, groups, g), title) == Alike(leq, groups + [g], title)
  {
    assert (groups + [g])[..|groups|] == groups;
    if groups != [] && !leq(groups[|groups| - 1].title, g.title) {
      var front, last := groups[..|groups| - 1], groups[|groups| - 1];
      InsertGoesBehindItsLike(leq, front, g, title);
      assert (front + [g])[..|front|] == front;
      var inner := Insert(leq, front, g);
      assert (inner + [last])[..|inner|] == inner;
    }
  }

  lemma {:induction false} SortRearranges(leq: Order, groups: seq<Group>)
    ensures multiset(Sort(leq, groups)) == multiset(groups)
  {
    if groups != [] {
      var front, g := groups[..|groups| - 1], groups[|groups| - 1];
      SortRearranges(leq, front);
      InsertAdds(leq, Sort(leq, front), g);
      assert groups == front + [g];
    }
  }

  lemma {:induction false} SortIsSorted(leq: Order, groups: seq<Group>)
    requires IsTotalPreorder(leq)
    ensures IsSorted(leq, Sort(leq, groups))
  {
    if groups != [] {
      var front := Sort(leq, groups[..|groups| - 1]);
      SortIsSorted(leq, groups[..|groups| - 1]);
      InsertKeepsSorted(leq, front, groups[|groups| - 1]);
    }
  }

  /** Groups with titles that compare as equal stay in their order. */
  lemma {:induction false} SortIsStable(leq: Order, groups: seq<Group>, title: string)
    requires IsTotalPreorder(leq)
    ensures Alike(leq, Sort(leq, groups), title) == Alike(leq, groups, title)
  {
    if groups != [] {
      var front, g := groups[..|groups| - 1], groups[|groups| - 1];
      SortIsStable(leq, front, title);
      InsertGoesBehindItsLike(leq, Sort(leq, front), g, title);
      assert (Sort(leq, front) + [g])[..|Sort(leq, front)|] == Sort(leq, front);
    }
  }

  // ---------------------------------------------------------------------------------------------
  // Grouping in one pass
  // ---------------------------------------------------------------------------------------------

  /** The table holds the groups of the channels seen so far, and remembers the order of its keys. */
  ghost predicate Holds(
      keyOf: TextOf, titleOf: TextOf, channels: seq<Channel>, keys: seq<string>, grouped: map<string, Group>)
  {
    && keys == Keys(keyOf, channels)
    && (forall key :: key in grouped <==> key in keys)
    && (forall key | key in grouped :: grouped[key] == GroupOf(keyOf, titleOf, channels, key))
  }

  lemma Step(keyOf: TextOf, titleOf: TextOf, front: seq<Channel>, c: Channel, key: string)
    ensures Keys(keyOf, front + [c]) ==
            Keys(keyOf, front) + (if c.release.nifog && keyOf(c) !in Keys(keyOf, front) then [keyOf(c)] else [])
    ensures !Belongs(keyOf, c, key) ==> GroupOf(keyOf, titleOf, front + [c], key) == GroupOf(keyOf, titleOf, front, key)
    ensures Belongs(keyOf, c, key) ==>
              GroupOf(keyOf, titleOf, front + [c], key) ==
              if key in Keys(keyOf, front) then
                var g := GroupOf(keyOf, titleOf, front, key);
                g.(channels := g.channels + [c])
              else Group(key, titleOf(c), [c])
  {
    assert (front + [c])[..|front|] == front;
    KeysHaveMembers(keyOf, front, key);
  }

  method AddChannel(
      keyOf: TextOf, titleOf: TextOf, ghost front: seq<Channel>, c: Channel, keys: seq<string>,
      grouped: map<string, Group>)
    returns (nextKeys: seq<string>, next: map<string, Group>)
    requires Holds(keyOf, titleOf, front, keys, grouped)
    ensures Holds(keyOf, titleOf, front + [c], nextKeys, next)
  {
    nextKeys, next := keys, grouped;
    forall key ensures
      !Belongs(keyOf, c, key) ==> GroupOf(keyOf, titleOf, front + [c], key) == GroupOf(keyOf, titleOf, front, key) {
      Step(keyOf, titleOf, front, c, key);
    }
    Step(keyOf, titleOf, front, c, keyOf(c));
    if c.release.nifog {
      var key := keyOf(c);
      if key in grouped {
        next := grouped[key := grouped[key].(channels := grouped[key].channels + [c])];
      } else {
        nextKeys := keys + [key];
        next := grouped[key := Group(key, titleOf(c), [c])];
      }
    }
  }

  /** Fills the table in one pass over the channels, and sorts what it holds. */
  method GroupNifogChannels(keyOf: TextOf, titleOf: TextOf, leq: Order, channels: seq<Channel>) returns (groups: seq<Group>)
    ensures groups == Sort(leq, AllGroups(keyOf, titleOf, channels))
  {
    var keys: seq<string> := [];
    var grouped: map<string, Group> := map[];
    for i := 0 to |channels|
      invariant Holds(keyOf, titleOf, channels[..i], keys, grouped)
    {
      assert channels[..i + 1] == channels[..i] + [channels[i]];
      keys, grouped := AddChannel(keyOf, titleOf, channels[..i], channels[i], keys, grouped);
    }
    assert channels[..|channels|] == channels;
    assert forall i | 0 <= i < |keys| :: keys[i] in keys;
    groups := seq(|keys|, i requires 0 <= i < |keys| && keys[i] in grouped => grouped[keys[i]]);
    assert groups == AllGroups(keyOf, titleOf, channels);
    groups := Sort(leq, groups);
  }

  // ---------------------------------------------------------------------------------------------
  // What the groups hold
  // ---------------------------------------------------------------------------------------------

  /** All channels of the groups. */
  function Bag(groups: seq<Group>): multiset<Channel> {
    if groups == [] then multiset{} else Bag(groups[..|groups| - 1]) + multiset(groups[|groups| - 1].channels)
  }

  /** All channels with one of these keys. */
  function BagOf(keyOf: TextOf, channels: seq<Channel>, keys: seq<string>): multiset<Channel> {
    if keys == [] then multiset{}
    else BagOf(keyOf, channels, keys[..|keys| - 1]) + multiset(Members(keyOf, channels, keys[|keys| - 1]))
  }

  lemma {:induction false} InsertKeepsBag(leq: Order, groups: seq<Group>, g: Group)
    ensures Bag(Insert(leq, groups, g)) == Bag(groups) + multiset(g.channels)
  {
    if groups == [] || leq(groups[|groups| - 1].title, g.title) {
      assert (groups + [g])[..|groups|] == groups;
    } else {
      var inner := Insert(leq, groups[..|groups| - 1], g);
      InsertKeepsBag(leq, groups[..|groups| - 1], g);
      assert (inner + [groups[|groups| - 1]])[..|inner|] == inner;
    }
  }

  lemma {:induction false} SortKeepsBag(leq: Order, groups: seq<Group>)
    ensures Bag(Sort(leq, groups)) == Bag(groups)
  {
    if groups != [] {
      SortKeepsBag(leq, groups[..|groups| - 1]);
      InsertKeepsBag(leq, Sort(leq, groups[..|groups| - 1]), groups[|groups| - 1]);
    }
  }

  function Once(c: Channel, counts: bool): multiset<Channel> {
    if counts then multiset{c} else multiset{}
  }

  lemma MembersStep(keyOf: TextOf, front: seq<Channel>, c: Channel, key: string)
    ensures multiset(Members(keyOf, front + [c], key)) ==
            multiset(Members(keyOf, front, key)) + Once(c, Belongs(keyOf, c, key))
  {
    assert (front + [c])[..|front|] == front;
  }

  lemma BagStep(keyOf: TextOf, channels: seq<Channel>, keys: seq<string>)
    requires keys != []
    ensures BagOf(keyOf, channels, keys) ==
            BagOf(keyOf, channels, keys[..|keys| - 1]) + multiset(Members(keyOf, channels, keys[|keys| - 1]))
  {
  }

  lemma OnceEither(c: Channel, p: bool, q: bool)
    requires !(p && q)
    ensures Once(c, p) + Once(c, q) == Once(c, p || q)
  {
  }

  lemma Regrouped(rest: multiset<Channel>, d: multiset<Channel>, members: multiset<Channel>, e: multiset<Channel>)
    ensures (rest + d) + (members + e) == (rest + members) + (d + e)
  {
  }

  lemma IsLast(key: string, keys: seq<string>)
    requires keys != []
    ensures key in keys <==> key in keys[..|keys| - 1] || key == keys[|keys| - 1]
  {
    assert keys == keys[..|keys| - 1] + [keys[|keys| - 1]];
  }

  /** One more channel counts once for its key among different keys, and not at all for other keys. */
  lemma {:induction false} OneMoreChannel(keyOf: TextOf, front: seq<Channel>, c: Channel, keys: seq<string>)
    requires Distinct(keys)
    ensures BagOf(keyOf, front + [c], keys) == BagOf(keyOf, front, keys) + Once(c, c.release.nifog && keyOf(c) in keys)
  {
    if keys != [] {
      var less, key := keys[..|keys| - 1], keys[|keys| - 1];
      var inLess, isKey := c.release.nifog && keyOf(c) in less, Belongs(keyOf, c, key);
      IsLast(keyOf(c), keys);
      calc {
        BagOf(keyOf, front + [c], keys);
        BagOf(keyOf, front + [c], less) + multiset(Members(keyOf, front + [c], key));
        { OneMoreChannel(keyOf, front, c, less); MembersStep(keyOf, front, c, key); }
        (BagOf(keyOf, front, less) + Once(c, inLess)) + (multiset(Members(keyOf, front, key)) + Once(c, isKey));
        { Regrouped(BagOf(keyOf, front, less), Once(c, inLess), multiset(Members(keyOf, front, key)), Once(c, isKey)); }
        (BagOf(keyOf, front, less) + multiset(Members(keyOf, front, key))) + (Once(c, inLess) + Once(c, isKey));
        { OnceEither(c, inLess, isKey); }
        BagOf(keyOf, front, keys) + Once(c, inLess || isKey);
      }
    }
  }

  lemma {:induction false} NoChannels(keyOf: TextOf, keys: seq<string>)
    ensures BagOf(keyOf, [], keys) == multiset{}
  {
    if keys != [] {
      NoChannels(keyOf, keys[..|keys| - 1]);
    }
  }

  lemma OthersStep(front: seq<Channel>, c: Channel)
    ensures multiset(Others(front + [c])) == multiset(Others(front)) + Once(c, !c.release.nifog)
  {
    assert (front + [c])[..|front|] == front;
  }

  lemma {:induction false} BagIsAllOf(keyOf: TextOf, channels: seq<Channel>, keys: seq<string>)
    requires Distinct(keys) && forall c | c in channels && c.release.nifog :: keyOf(c) in keys
    ensures BagOf(keyOf, channels, keys) + multiset(Others(channels)) == multiset(channels)
  {
    if channels == [] {
      NoChannels(keyOf, keys);
    } else {
      var front, c := channels[..|channels| - 1], channels[|channels| - 1];
      assert channels == front + [c] && c in channels;
      calc {
        BagOf(keyOf, channels, keys) + multiset(Others(channels));
        { OneMoreChannel(keyOf, front, c, keys); OthersStep(front, c); }
        (BagOf(keyOf, front, keys) + Once(c, c.release.nifog)) + (multiset(Others(front)) + Once(c, !c.release.nifog));
        { Regrouped(BagOf(keyOf, front, keys), Once(c, c.release.nifog), multiset(Others(front)), Once(c, !c.release.nifog)); }
        (BagOf(keyOf, front, keys) + multiset(Others(front))) + (Once(c, c.release.nifog) + Once(c, !c.release.nifog));
        { BagIsAllOf(keyOf, front, keys); OnceEither(c, c.release.nifog, !c.release.nifog); }
        multiset(front) + multiset{c};
        multiset(channels);
      }
    }
  }

  lemma {:induction false} BagOfGroups(keyOf: TextOf, titleOf: TextOf, channels: seq<Channel>, keys: seq<string>)
    ensures Bag(GroupsOf(keyOf, titleOf, channels, keys)) == BagOf(keyOf, channels, keys)
  {
    if keys != [] {
      var less := keys[..|keys| - 1];
      BagOfGroups(keyOf, titleOf, channels, less);
      assert GroupsOf(keyOf, titleOf, channels, keys)[..|keys| - 1] == GroupsOf(keyOf, titleOf, channels, less);
    }
  }

  /** Nothing is lost and nothing is shown twice: the groups and the other channels together are the input. */
  lemma GroupsPartitionTheChannels(keyOf: TextOf, titleOf: TextOf, leq: Order, channels: seq<Channel>)
    ensures Bag(Sort(leq, AllGroups(keyOf, titleOf, channels))) + multiset(Others(channels)) == multiset(channels)
  {
    var keys := Keys(keyOf, channels);
    SortKeepsBag(leq, AllGroups(keyOf, titleOf, channels));
    BagOfGroups(keyOf, titleOf, channels, keys);
    KeysAreDistinct(keyOf, channels);
    forall c | c in channels && c.release.nifog ensures keyOf(c) in keys {
      MembersBelong(keyOf, channels, keyOf(c), c);
      KeysHaveMembers(keyOf, channels, keyOf(c));
    }
    BagIsAllOf(keyOf, channels, keys);
  }

  lemma {:induction false} DistinctPlaces(keys: seq<string>, i: nat, j: nat)
    requires Distinct(keys) && i < j < |keys|
    ensures keys[i] != keys[j]
  {
    if j < |keys| - 1 {
      DistinctPlaces(keys[..|keys| - 1], i, j);
    } else {
      assert keys[i] == keys[..j][i];
    }
  }

  /** What is shown are the groups of the keys, one for each key, with their members in the order of the list. */
  lemma ShownGroupsAreTheGroups(keyOf: TextOf, titleOf: TextOf, leq: Order, channels: seq<Channel>)
    requires IsTotalPreorder(leq)
    ensures var shown := Sort(leq, AllGroups(keyOf, titleOf, channels));
            && IsSorted(leq, shown) && |shown| == |Keys(keyOf, channels)|
            && (forall g | g in shown :: g == GroupOf(keyOf, titleOf, channels, g.key) && g.channels != [])
            && (forall key | key in Keys(keyOf, channels) :: GroupOf(keyOf, titleOf, channels, key) in shown)
  {
    var keys, groups := Keys(keyOf, channels), AllGroups(keyOf, titleOf, channels);
    var shown := Sort(leq, groups);
    SortIsSorted(leq, groups);
    SortRearranges(leq, groups);
    assert |shown| == |multiset(shown)| == |multiset(groups)| == |groups|;
    forall g | g in shown ensures g == GroupOf(keyOf, titleOf, channels, g.key) && g.channels != [] {
      assert g in multiset(shown);
      KeysHaveMembers(keyOf, channels, g.key);
    }
    forall key | key in keys ensures GroupOf(keyOf, titleOf, channels, key) in shown {
      var k :| 0 <= k < |keys| && keys[k] == key;
      assert groups[k] in multiset(shown);
    }
  }

  // ---------------------------------------------------------------------------------------------
  // The source that is shown for a group
  // ---------------------------------------------------------------------------------------------

  predicate SameSource(a: Release, b: Release) {
    a.name == b.name && a.version == b.version
  }

  /** The source of a group is taken from its first channel; every channel comes from it. */
  predicate ShowsItsSource(g: Group) {
    g.channels != [] && forall c | c in g.channels :: SameSource(c.release, g.channels[0].release)
  }

  predicate KeysTellSources(keyOf: TextOf, channels: seq<Channel>) {
    forall c, d | c in channels && d in channels && c.release.nifog && Belongs(keyOf, d, keyOf(c)) ::
      SameSource(c.release, d.release)
  }

  /** Every channel is shown under its own source exactly when no two NIFOG channels with one key have different sources. */
  lemma SourcesAreRightExactly(keyOf: TextOf, titleOf: TextOf, channels: seq<Channel>)
    ensures (forall key | key in Keys(keyOf, channels) :: ShowsItsSource(GroupOf(keyOf, titleOf, channels, key))) <==>
            KeysTellSources(keyOf, channels)
  {
    if KeysTellSources(keyOf, channels) {
      forall key | key in Keys(keyOf, channels) ensures ShowsItsSource(GroupOf(keyOf, titleOf, channels, key)) {
        GroupShowsItsSource(keyOf, titleOf, channels, key);
      }
    }
    if forall key | key in Keys(keyOf, channels) :: ShowsItsSource(GroupOf(keyOf, titleOf, channels, key)) {
      forall c, d | c in channels && d in channels && c.release.nifog && Belongs(keyOf, d, keyOf(c))
        ensures SameSource(c.release, d.release)
      {
        var key := keyOf(c);
        MembersBelong(keyOf, channels, key, c);
        MembersBelong(keyOf, channels, key, d);
        KeysHaveMembers(keyOf, channels, key);
        assert ShowsItsSource(GroupOf(keyOf, titleOf, channels, key));
      }
    }
  }

  lemma GroupShowsItsSource(keyOf: TextOf, titleOf: TextOf, channels: seq<Channel>, key: string)
    requires key in Keys(keyOf, channels) && KeysTellSources(keyOf, channels)
    ensures ShowsItsSource(GroupOf(keyOf, titleOf, channels, key))
  {
    var g := GroupOf(keyOf, titleOf, channels, key);
    KeysHaveMembers(keyOf, channels, key);
    MembersBelong(keyOf, channels, key, g.channels[0]);
    forall c | c in g.channels ensures SameSource(c.release, g.channels[0].release) {
      MembersBelong(keyOf, channels, key, c);
    }
  }

  /** In particular it is right when release ids are free of colons and belong to one release each. */
  lemma ColonFreeIdsShowTheirSource(channels: seq<Channel>)
    requires forall c | c in channels :: ':' !in c.release.id
    requires forall c, d | c in channels && d in channels && c.release.id == d.release.id :: c.release == d.release
    ensures KeysTellSources(CategoryKey, channels)
  {
    forall c, d | c in channels && d in channels && c.release.nifog && Belongs(CategoryKey, d, CategoryKey(c))
      ensures SameSource(c.release, d.release)
    {
      ColonFreeIdsAreToldApart(c, d);
    }
  }
}
