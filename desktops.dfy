/** client/src/stores/desktops.js: the store of virtual desktops, each with its
    own list of links, and the index of the desktop on show. Desktops and links
    are modelled as values held in the store's sequence; `Date.now()` is a
    parameter. */
module Desktops {
  import opened Wrappers

  /** A link: its id and its other properties (url, title, ...). */
  datatype Link = Link(id: int, attrs: map<string, string>)

  /** The argument of `addLink`: the caller's object, with or without an id. */
  datatype LinkInput = LinkInput(id: Option<int>, attrs: map<string, string>)

  datatype Desktop = Desktop(id: int, name: string, background: string, links: seq<Link>)

  /** The argument of `addDesktop`: only `name` and `background` are read. */
  datatype DesktopInput = DesktopInput(name: Option<string>, background: Option<string>)

  /** The argument of `updateDesktop`: the keys present in `updates`. */
  datatype DesktopUpdate = DesktopUpdate(
    id: Option<int>, name: Option<string>, background: Option<string>, links: Option<seq<Link>>)

  const DefaultName := "Nuevo Escritorio"
  const DefaultBackground := "#1e293b"

  /** `{ id: Date.now(), name: desktop.name || 'Nuevo Escritorio', background:
      desktop.background || '#1e293b', links: [] }`. */
  function NewDesktop(input: DesktopInput, now: int): (d: Desktop)
    ensures d.id == now && d.links == []
    ensures input.name.Some? && input.name.value != "" ==> d.name == input.name.value
    ensures input.name.None? || input.name.value == "" ==> d.name == DefaultName
    ensures input.background.Some? && input.background.value != "" ==> d.background == input.background.value
    ensures input.background.None? || input.background.value == "" ==> d.background == DefaultBackground
  {
    Desktop(now,
      if input.name.Some? && input.name.value != "" then input.name.value else DefaultName,
      if input.background.Some? && input.background.value != "" then input.background.value else DefaultBackground,
      [])
  }

  /** `Object.assign(desktop, updates)`: the given keys are overwritten, the others kept. */
  function ApplyUpdate(d: Desktop, u: DesktopUpdate): (r: Desktop)
    ensures r.id == (if u.id.Some? then u.id.value else d.id)
    ensures r.name == (if u.name.Some? then u.name.value else d.name)
    ensures r.background == (if u.background.Some? then u.background.value else d.background)
    ensures r.links == (if u.links.Some? then u.links.value else d.links)
    ensures u == DesktopUpdate(None, None, None, None) ==> r == d
  {
    Desktop(
      u.id.GetOr(d.id), u.name.GetOr(d.name), u.background.GetOr(d.background), u.links.GetOr(d.links))
  }

  /** `{ id: Date.now(), ...link }`: the caller's own id wins over the timestamp. */
  function MakeLink(input: LinkInput, now: int): (l: Link)
    ensures l.attrs == input.attrs
    ensures l.id == (if input.id.Some? then input.id.value else now)
  {
    Link(input.id.GetOr(now), input.attrs)
  }

  /** Where `splice(index, 1)` starts: a negative index counts from the end (and
      stops at 0); an index past the end removes nothing. */
  function SpliceStart(index: int, len: nat): (s: nat)
    ensures s <= len
    ensures 0 <= index <= len ==> s == index
    ensures index > len ==> s == len
    ensures index < 0 && len + index >= 0 ==> s == len + index
    ensures len + index < 0 ==> s == 0
  {
    if index < 0 then (if len + index < 0 then 0 else len + index)
    else if index > len then len
    else index
  }

  /** `splice(start, 1)` for a start already inside [0, len]. */
  function RemoveAt<T>(s: seq<T>, i: nat): (r: seq<T>)
    requires i <= |s|
    ensures i < |s| ==> |r| == |s| - 1 && multiset(r) + multiset{s[i]} == multiset(s)
    ensures i < |s| ==> forall j :: 0 <= j < |r| ==> r[j] == (if j < i then s[j] else s[j + 1])
    ensures i == |s| ==> r == s
  {
    if i < |s| then
      assert s == s[..i] + [s[i]] + s[i + 1..];
      s[..i] + s[i + 1..]
    else s
  }

  /** `links.findIndex(link => link.id === linkId)`, None for -1. */
  function FindLink(links: seq<Link>, linkId: int): (r: Option<nat>)
    ensures r.Some? ==> r.value < |links| && links[r.value].id == linkId
    ensures r.Some? ==> forall j :: 0 <= j < r.value ==> links[j].id != linkId
    ensures r.None? ==> forall j :: 0 <= j < |links| ==> links[j].id != linkId
  {
    if links == [] then None
    else if links[0].id == linkId then Some(0)
    else match FindLink(links[1..], linkId) {
      case None => None
      case Some(k) => Some(k + 1)
    }
  }

  /** The links after `removeLink`: the first link with that id removed, the rest
      in their order; all of them when no link has that id. */
  function WithoutLink(links: seq<Link>, linkId: int): (r: seq<Link>)
    ensures FindLink(links, linkId).None? ==> r == links
    ensures FindLink(links, linkId).Some? ==> |r| == |links| - 1
    ensures FindLink(links, linkId).Some? ==>
      multiset(r) + multiset{links[FindLink(links, linkId).value]} == multiset(links)
    ensures FindLink(links, linkId).Some? ==>
      var k := FindLink(links, linkId).value;
      r == links[..k] + links[k + 1..]
  {
    match FindLink(links, linkId) {
      case None => links
      case Some(k) => RemoveAt(links, k)
    }
  }

  /** The current index after `removeDesktop`. */
  function CurrentAfterRemove(current: int, newLength: nat): (r: int)
    ensures current < newLength ==> r == current
    ensures 0 < newLength <= current ==> r == newLength - 1
    ensures 0 <= current ==> (newLength > 0 <==> 0 <= r) && r < newLength
  {
    if current >= newLength then newLength - 1 else current
  }

  /** The desktop store. `desktops` is never empty. */
  class DesktopStore {
    var currentDesktop: int
    var desktops: seq<Desktop>

    ghost predicate Valid()
      reads this
    {
      |desktops| >= 1
    }

    /** The initial state: 'Trabajo' (id 0) and 'Ocio' (id 1), no links, the
        first one on show. */
    constructor()
      ensures Valid()
      ensures currentDesktop == 0
      ensures desktops == [Desktop(0, "Trabajo", "#1e293b", []), Desktop(1, "Ocio", "#0f172a", [])]
    {
      currentDesktop := 0;
      desktops := [Desktop(0, "Trabajo", "#1e293b", []), Desktop(1, "Ocio", "#0f172a", [])];
    }

    /** `getCurrentDesktop`: absent when the index is outside the list. */
    function GetCurrentDesktop(): (r: Option<Desktop>)
      reads this
      ensures r.Some? <==> 0 <= currentDesktop < |desktops|
      ensures r.Some? ==> r.value == desktops[currentDesktop]
    {
      if 0 <= currentDesktop < |desktops| then Some(desktops[currentDesktop]) else None
    }

    /** `setCurrentDesktop`: stores the index as given, in range or not. */
    method SetCurrentDesktop(index: int)
      requires Valid()
      modifies this
      ensures Valid()
      ensures currentDesktop == index && desktops == old(desktops)
    {
      currentDesktop := index;
    }

    /** `addDesktop`: appends one new desktop; the others and the current index
        are unchanged. */
    method AddDesktop(input: DesktopInput, now: int)
      requires Valid()
      modifies this
      ensures Valid()
      ensures desktops == old(desktops) + [NewDesktop(input, now)]
      ensures currentDesktop == old(currentDesktop)
    {
      desktops := desktops + [NewDesktop(input, now)];
    }

    /** `removeDesktop`: with more than one desktop, removes the one `splice`
        picks and pulls the current index back to the last desktop when it now
        points past the end; with one desktop, does nothing. */
    method RemoveDesktop(index: int)
      requires Valid()
      modifies this
      ensures Valid()
      ensures |old(desktops)| <= 1 ==> desktops == old(desktops) && currentDesktop == old(currentDesktop)
      ensures |old(desktops)| > 1 ==>
        desktops == RemoveAt(old(desktops), SpliceStart(index, |old(desktops)|))
      ensures |old(desktops)| > 1 ==> currentDesktop == CurrentAfterRemove(old(currentDesktop), |desktops|)
    {
      if |desktops| > 1 {
        desktops := RemoveAt(desktops, SpliceStart(index, |desktops|));
        if currentDesktop >= |desktops| {
          currentDesktop := |desktops| - 1;
        }
      }
    }

    /** `updateDesktop`: overwrites the given keys of that one desktop; a missing
        index changes nothing. */
    method UpdateDesktop(index: int, updates: DesktopUpdate)
      requires Valid()
      modifies this
      ensures Valid()
      ensures currentDesktop == old(currentDesktop)
      ensures 0 <= index < |old(desktops)| ==>
        desktops == old(desktops)[index := ApplyUpdate(old(desktops)[index], updates)]
      ensures !(0 <= index < |old(desktops)|) ==> desktops == old(desktops)
    {
      if 0 <= index < |desktops| {
        desktops := desktops[index := ApplyUpdate(desktops[index], updates)];
      }
    }

    /** `addLink`: appends one link to that desktop only; a missing desktop
        changes nothing. */
    method AddLink(desktopIndex: int, link: LinkInput, now: int)
      requires Valid()
      modifies this
      ensures Valid()
      ensures currentDesktop == old(currentDesktop)
      ensures 0 <= desktopIndex < |old(desktops)| ==> desktops == old(desktops)[desktopIndex :=
        old(desktops)[desktopIndex].(links := old(desktops)[desktopIndex].links + [MakeLink(link, now)])]
      ensures !(0 <= desktopIndex < |old(desktops)|) ==> desktops == old(desktops)
    {
      if 0 <= desktopIndex < |desktops| {
        var d := desktops[desktopIndex];
        desktops := desktops[desktopIndex := d.(links := d.links + [MakeLink(link, now)])];
      }
    }

    /** `removeLink`: removes the first link with that id from that desktop only. */
    method RemoveLink(desktopIndex: int, linkId: int)
      requires Valid()
      modifies this
      ensures Valid()
      ensures currentDesktop == old(currentDesktop)
      ensures 0 <= desktopIndex < |old(desktops)| ==> desktops == old(desktops)[desktopIndex :=
        old(desktops)[desktopIndex].(links := WithoutLink(old(desktops)[desktopIndex].links, linkId))]
      ensures !(0 <= desktopIndex < |old(desktops)|) ==> desktops == old(desktops)
    {
      if 0 <= desktopIndex < |desktops| {
        var d := desktops[desktopIndex];
        var linkIndex := FindLink(d.links, linkId);
        if linkIndex.Some? {
          desktops := desktops[desktopIndex := d.(links := RemoveAt(d.links, linkIndex.value))];
        } else {
          assert WithoutLink(d.links, linkId) == d.links;
          assert d.(links := d.links) == d;
          assert desktops[desktopIndex := d] == desktops;
        }
      }
    }
  }

  /** Removing a desktop from a store of more than one keeps an in-range current
      index in range. */
  lemma RemoveKeepsCurrentInRange(desktops: seq<Desktop>, current: int, index: int)
    requires |desktops| > 1 && 0 <= current < |desktops|
    ensures 0 <= CurrentAfterRemove(current, |RemoveAt(desktops, SpliceStart(index, |desktops|))|)
      < |RemoveAt(desktops, SpliceStart(index, |desktops|))|
  {
  }

  /** Removing a desktop in front of the current one leaves the index where it
      was, so the desktop on show becomes the one that followed it. */
  lemma RemoveBeforeCurrentShows(desktops: seq<Desktop>, current: int, index: int)
    requires 0 <= index < current < |desktops| - 1
    ensures var rest := RemoveAt(desktops, SpliceStart(index, |desktops|));
      CurrentAfterRemove(current, |rest|) == current && rest[current] == desktops[current + 1]
  {
  }

  /** `removeDesktop(-1)` removes the last desktop, as `splice(-1, 1)` does. */
  lemma RemoveMinusOneRemovesLast(desktops: seq<Desktop>)
    requires |desktops| > 1
    ensures RemoveAt(desktops, SpliceStart(-1, |desktops|)) == desktops[..|desktops| - 1]
  {
  }
}
