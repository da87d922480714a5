// Refuse-not-wait exclusion between loader operations, and the write-back echo.

module Gate {
  import opened Profiles
  import opened Document

  /** What is engaged: the whole document by a reconcile, or entries by operations on each. */
  class Engagement {
    var document: bool
    var entries: set<EntryId>

    /** A reconcile and an entry's operation are never engaged at once. */
    predicate Valid()
      reads this
    {
      document ==> entries == {}
    }

    constructor ()
      ensures Valid() && !document && entries == {}
    {
      document, entries := false, {};
    }

    method EngageEntry(entry: EntryId) returns (engaged: bool)
      requires Valid()
      modifies this
      ensures Valid() && document == old(document)
      ensures engaged <==> !old(document) && entry !in old(entries)
      ensures entries == if engaged then old(entries) + {entry} else old(entries)
    {
      if document || entry in entries { return false; }
      entries := entries + {entry};
      engaged := true;
    }

    method ReleaseEntry(entry: EntryId)
      requires Valid()
      modifies this
      ensures Valid() && document == old(document) && entries == old(entries) - {entry}
    {
      entries := entries - {entry};
    }

    method EngageDocument() returns (engaged: bool)
      requires Valid()
      modifies this
      ensures Valid() && entries == old(entries)
      ensures engaged <==> !old(document) && old(entries) == {}
      ensures document == (engaged || old(document))
    {
      if document || entries != {} { return false; }
      document := true;
      engaged := true;
    }

    method ReleaseDocument()
      requires Valid()
      modifies this
      ensures Valid() && !document && entries == old(entries)
    {
      document := false;
    }
  }

  /** The attached store: the document last written, and the echo its text may still make. */
  class Persistence {
    const codec: Codec<Persisted>
    var baseline: Document<Persisted>
    var written: Option<seq<string>>

    constructor (codec: Codec<Persisted>, baseline: Document<Persisted>)
      ensures this.codec == codec && this.baseline == baseline && written.None?
    {
      this.codec, this.baseline, written := codec, baseline, None;
    }

    /** The store takes a document or refuses it; a taken one is the next save's baseline, its text the pending echo. */
    method Write(document: Document<Persisted>, taken: bool)
      modifies this
      ensures baseline == if taken then document else old(baseline)
      ensures written == if taken then Some(Items(codec, document)) else old(written)
    {
      if taken {
        var text := Render(codec, document);
        written := Some(text);
        baseline := document;
      }
    }

    /** Saves a committed profile over the baseline: kept items and unknown fields are carried into what is written. */
    method SaveCommitted(profile: seq<Entry>, taken: bool)
      modifies this
      ensures taken ==> && baseline.raw == old(baseline.raw) && |baseline.entries| == |profile|
                        && (forall i :: 0 <= i < |profile| ==>
                             baseline.entries[i] == Written(profile[i], old(baseline.entries)))
                        && written == Some(Items(codec, baseline))
      ensures !taken ==> baseline == old(baseline) && written == old(written)
    {
      var merged := MergeProfile(profile, baseline);
      Write(merged, taken);
    }

    /**
     * Saves one entry's amendment over the baseline: the first entry of the id takes the new config and flag,
     * and its siblings stay; an id the baseline does not hold is refused.
     */
    method SaveAmendment(id: string, config: Option<Config>, disabled: Option<bool>, taken: bool) returns (saved: bool)
      modifies this
      ensures saved <==> taken && exists i :: 0 <= i < |old(baseline.entries)| && old(baseline.entries)[i].id == id
      ensures saved ==> && baseline.raw == old(baseline.raw)
                        && Rewritten(old(baseline.entries), baseline.entries, id, config, disabled)
                        && written == Some(Items(codec, baseline))
      ensures !saved ==> baseline == old(baseline) && written == old(written)
    {
      var amended := Amended(baseline, id, config, disabled);
      if amended.None? { return false; }
      Write(amended.value, taken);
      saved := taken;
    }

    /** Retires the pending echo: true exactly once for the text last written. */
    method RetireEcho(delivered: seq<string>) returns (retired: bool)
      modifies this
      ensures retired <==> old(written) == Some(delivered)
      ensures written == if retired then None else old(written)
      ensures baseline == old(baseline)
    {
      if written != Some(delivered) { return false; }
      written := None;
      retired := true;
    }
  }

  /**
   * After a save, its text is retired by the first delivery that matches it and by no later one, whatever else
   * is delivered first.
   */
  method EchoOnce(p: Persistence, profile: seq<Entry>, others: seq<seq<string>>) returns (first: bool, again: bool)
    modifies p
    ensures first && !again && p.written == None && p.baseline.raw == old(p.baseline.raw)
  {
    p.SaveCommitted(profile, true);
    var text := p.written.value;
    for i := 0 to |others|
      invariant p.written == Some(text) && p.baseline.raw == old(p.baseline.raw)
    {
      if others[i] != text { var other := p.RetireEcho(others[i]); }
    }
    first := p.RetireEcho(text);
    again := p.RetireEcho(text);
  }

  /**
   * A save taken before an earlier one's echo arrives supersedes it: the earlier text retires nothing, unless
   * both saves wrote the same, and the later text is retired once; kept items survive both saves.
   */
  method EchoSuperseded(p: Persistence, profile: seq<Entry>, next: seq<Entry>)
      returns (same: bool, early: bool, late: bool)
    modifies p
    ensures early <==> same
    ensures late <==> !same
    ensures p.written == None && p.baseline.raw == old(p.baseline.raw)
  {
    p.SaveCommitted(profile, true);
    var superseded := p.written.value;
    p.SaveCommitted(next, true);
    same := p.written == Some(superseded);
    var text := p.written.value;
    early := p.RetireEcho(superseded);
    late := p.RetireEcho(text);
  }
}
