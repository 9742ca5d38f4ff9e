/**
 * How a resource's property bag turns into the network list and the tag list
 * of the download created for it: each property value is split on commas,
 * each piece trimmed, then canonicalised as a network name or parsed as a
 * numeric tag uid and looked up. Pieces that do not resolve are skipped.
 */
module ShareProperties {
  import opened Wrappers
  import opened JavaStrings
  import opened Engine

  /** ShareManager.PR_NETWORKS: comma-separated network names. */
  const PR_NETWORKS: string := "networks"
  /** ShareManager.PR_TAGS: comma-separated numeric tag uids. */
  const PR_TAGS: string := "tags"

  /**
   * The foreign calls used while parsing: AENetworkClassifier.internalise,
   * None where it gives null; Long.parseLong and TagManager.lookupTagByUID,
   * None where Java gives null or throws (the tags loop catches per piece).
   */
  datatype Lookups = Lookups(
    internalise: string -> Option<string>,
    parseLong: string -> Option<int>,
    lookupTag: int -> Option<Tag>)

  /**
   * The pieces' contributions concatenated in input order: the shape of both
   * parsing loops, each piece handled on its own.
   */
  function Collect<T>(bits: seq<string>, piece: string -> seq<T>): seq<T>
  {
    if bits == [] then [] else Collect(bits[..|bits| - 1], piece) + piece(bits[|bits| - 1])
  }

  /** What one comma-separated piece contributes to the network list: its canonical name, if it has one. */
  function NetworkPiece(l: Lookups): string -> seq<string>
  {
    bit => match l.internalise(Trim(bit)) case Some(n) => [n] case None => []
  }

  /** What one comma-separated piece contributes to the tag list: the tag its uid names, if it parses and resolves. */
  function TagPiece(l: Lookups): string -> seq<Tag>
  {
    bit =>
      match l.parseLong(Trim(bit))
      case None => []
      case Some(uid) => match l.lookupTag(uid) case Some(t) => [t] case None => []
  }

  /** The networks named by bits, in order: each piece trimmed and canonicalised, unknown names dropped. */
  function NetworkList(bits: seq<string>, l: Lookups): seq<string>
  {
    Collect(bits, NetworkPiece(l))
  }

  /** The tags named by bits, in order: each piece trimmed, parsed and looked up, failures dropped. */
  function TagList(bits: seq<string>, l: Lookups): seq<Tag>
  {
    Collect(bits, TagPiece(l))
  }

  /** addDownload's `networks` for a property bag (null bag or missing key: empty). */
  function NetworksOf(properties: Option<map<string, string>>, l: Lookups): seq<string>
  {
    if properties.Some? && PR_NETWORKS in properties.value
    then NetworkList(Split(properties.value[PR_NETWORKS], ','), l)
    else []
  }

  /** addDownload's `tags` for a property bag (null bag or missing key: empty). */
  function TagsOf(properties: Option<map<string, string>>, l: Lookups): seq<Tag>
  {
    if properties.Some? && PR_TAGS in properties.value
    then TagList(Split(properties.value[PR_TAGS], ','), l)
    else []
  }

  /** The list for a concatenation of pieces is the concatenation of the lists. */
  lemma {:induction false} CollectAppend<T>(a: seq<string>, b: seq<string>, piece: string -> seq<T>)
    ensures Collect(a + b, piece) == Collect(a, piece) + Collect(b, piece)
    decreases |b|
  {
    if b != [] {
      var b' := b[..|b| - 1];
      assert (a + b)[..|a + b| - 1] == a + b';
      CollectAppend(a, b', piece);
    } else {
      assert a + b == a;
    }
  }

  /** x is collected exactly when some piece contributes it. */
  lemma {:induction false} CollectMembers<T>(bits: seq<string>, piece: string -> seq<T>, x: T)
    ensures x in Collect(bits, piece) <==> exists i :: 0 <= i < |bits| && x in piece(bits[i])
    decreases |bits|
  {
    if bits != [] {
      var init := bits[..|bits| - 1];
      CollectMembers(init, piece, x);
      assert forall i :: 0 <= i < |init| ==> init[i] == bits[i];
      if exists i :: 0 <= i < |bits| && x in piece(bits[i]) {
        var i :| 0 <= i < |bits| && x in piece(bits[i]);
        if i < |init| { assert init[i] == bits[i]; }
      }
    }
  }

  /** Pieces contributing one entry each are collected one-to-one, in input order. */
  lemma {:induction false} CollectInOrder<T>(bits: seq<string>, piece: string -> seq<T>)
    requires forall i :: 0 <= i < |bits| ==> |piece(bits[i])| == 1
    ensures |Collect(bits, piece)| == |bits|
    ensures forall i :: 0 <= i < |bits| ==> Collect(bits, piece)[i] == piece(bits[i])[0]
    decreases |bits|
  {
    if bits != [] {
      var init := bits[..|bits| - 1];
      assert forall i :: 0 <= i < |init| ==> init[i] == bits[i];
      CollectInOrder(init, piece);
    }
  }

  /** A network is in the list exactly when some piece, trimmed, canonicalises to it. */
  lemma NetworkListMembers(bits: seq<string>, l: Lookups, n: string)
    ensures n in NetworkList(bits, l) <==> exists i :: 0 <= i < |bits| && l.internalise(Trim(bits[i])) == Some(n)
  {
    CollectMembers(bits, NetworkPiece(l), n);
    forall i | 0 <= i < |bits|
      ensures n in NetworkPiece(l)(bits[i]) <==> l.internalise(Trim(bits[i])) == Some(n)
    {
    }
  }

  /** When every piece names a known network, the list has one entry per piece, in input order. */
  lemma NetworkListInOrder(bits: seq<string>, l: Lookups)
    requires forall i :: 0 <= i < |bits| ==> l.internalise(Trim(bits[i])).Some?
    ensures |NetworkList(bits, l)| == |bits|
    ensures forall i :: 0 <= i < |bits| ==> NetworkList(bits, l)[i] == l.internalise(Trim(bits[i])).value
  {
    forall i | 0 <= i < |bits|
      ensures NetworkPiece(l)(bits[i]) == [l.internalise(Trim(bits[i])).value]
    {
    }
    CollectInOrder(bits, NetworkPiece(l));
  }

  /** A tag is in the list exactly when some piece, trimmed, parses to a uid that resolves to it. */
  lemma TagListMembers(bits: seq<string>, l: Lookups, t: Tag)
    ensures t in TagList(bits, l) <==>
      exists i :: 0 <= i < |bits| && l.parseLong(Trim(bits[i])).Some? && l.lookupTag(l.parseLong(Trim(bits[i])).value) == Some(t)
  {
    CollectMembers(bits, TagPiece(l), t);
    forall i | 0 <= i < |bits|
      ensures t in TagPiece(l)(bits[i]) <==>
        l.parseLong(Trim(bits[i])).Some? && l.lookupTag(l.parseLong(Trim(bits[i])).value) == Some(t)
    {
    }
  }

  /** A piece contributing nothing leaves the pieces around it as they were. */
  lemma CollectSkips<T>(a: seq<string>, bad: string, c: seq<string>, piece: string -> seq<T>)
    requires piece(bad) == []
    ensures Collect(a + [bad] + c, piece) == Collect(a, piece) + Collect(c, piece)
  {
    assert [bad][..0] == [];
    assert Collect([bad], piece) == [];
    CollectAppend(a, [bad], piece);
    assert Collect(a + [bad], piece) == Collect(a, piece);
    CollectAppend(a + [bad], c, piece);
  }

  /** A piece that is not a number, or names no tag, is skipped and the pieces around it still count. */
  lemma TagListSkipsBadEntry(a: seq<string>, bad: string, c: seq<string>, l: Lookups)
    requires l.parseLong(Trim(bad)).None? || l.lookupTag(l.parseLong(Trim(bad)).value).None?
    ensures TagList(a + [bad] + c, l) == TagList(a, l) + TagList(c, l)
  {
    assert TagPiece(l)(bad) == [];
    CollectSkips(a, bad, c, TagPiece(l));
  }

  /** The loop at the head of addDownload that fills `networks` from PR_NETWORKS. */
  method ParseNetworks(properties: Option<map<string, string>>, l: Lookups) returns (networks: seq<string>)
    ensures networks == NetworksOf(properties, l)
  {
    networks := [];
    if properties.Some? && PR_NETWORKS in properties.value {
      var bits := Split(properties.value[PR_NETWORKS], ',');
      for i := 0 to |bits|
        invariant networks == NetworkList(bits[..i], l)
      {
        assert bits[..i + 1][..i] == bits[..i];
        var bit := l.internalise(Trim(bits[i]));
        if bit.Some? {
          networks := networks + [bit.value];
        }
      }
      assert bits[..|bits|] == bits;
    }
  }

  /** The loop that fills `tags` from PR_TAGS; a piece whose parse or lookup fails is skipped. */
  method ParseTags(properties: Option<map<string, string>>, l: Lookups) returns (tags: seq<Tag>)
    ensures tags == TagsOf(properties, l)
  {
    tags := [];
    if properties.Some? && PR_TAGS in properties.value {
      var bits := Split(properties.value[PR_TAGS], ',');
      for i := 0 to |bits|
        invariant tags == TagList(bits[..i], l)
      {
        assert bits[..i + 1][..i] == bits[..i];
        var uid := l.parseLong(Trim(bits[i]));
        if uid.Some? {
          var tag := l.lookupTag(uid.value);
          if tag.Some? {
            tags := tags + [tag.value];
          }
        }
      }
      assert bits[..|bits|] == bits;
    }
  }
}
