/** Media attachments as the bot stores them: strings `"<kind>:<file_id>"` (bot.py:180-195). */
module Media {
  import opened Wrappers
  import opened Text

  datatype Kind = Photo | Video | Audio | Voice

  /** The kind tag written before the colon. */
  function Tag(k: Kind): (t: string)
    ensures |t| == 5 && ':' !in t
  {
    match k
    case Photo => "photo"
    case Video => "video"
    case Audio => "audio"
    case Voice => "voice"
  }

  /** The prefix the bot tests with `startswith`, e.g. `'photo:'`. */
  function Prefix(k: Kind): string
  {
    Tag(k) + ":"
  }

  /** `f"{kind}:{file_id}"` */
  function Entry(k: Kind, fileId: string): (m: string)
    ensures StartsWith(m, Prefix(k)) && |m| == 6 + |fileId|
  {
    Prefix(k) + fileId
  }

  /** The kind an entry is recognised as by the prefix tests, photo first. */
  function KindOf(m: string): (r: Option<Kind>)
    ensures r.Some? ==> StartsWith(m, Prefix(r.value))
    ensures r.None? ==> !Tagged4(m)
  {
    if StartsWith(m, "photo:") then Some(Photo)
    else if StartsWith(m, "video:") then Some(Video)
    else if StartsWith(m, "audio:") then Some(Audio)
    else if StartsWith(m, "voice:") then Some(Voice)
    else None
  }

  predicate Tagged4(m: string)
  {
    StartsWith(m, "photo:") || StartsWith(m, "video:") || StartsWith(m, "audio:") || StartsWith(m, "voice:")
  }

  /** The prefixes exclude each other, so the prefix test recognises exactly the kind whose
      prefix an entry starts with. */
  lemma KindOfPrefix(m: string, k: Kind)
    requires StartsWith(m, Prefix(k))
    ensures KindOf(m) == Some(k)
  {
    assert m[..6] == Prefix(k);
    assert m[0] == Prefix(k)[0] && m[1] == Prefix(k)[1];
  }

  /** An entry carrying one of the four kind prefixes. */
  predicate Tagged(m: string)
  {
    KindOf(m).Some?
  }

  /** `m.split(':', 1)[1]`, defined whenever `m` contains a colon. */
  function FileId(m: string): (id: string)
    requires ':' in m
    ensures |id| < |m|
  {
    Split1(m, ':')[1]
  }

  /** An entry with a kind prefix is the entry built from that kind and its
      `split(':', 1)[1]`, which is therefore defined. */
  lemma PrefixedHasColon(m: string, k: Kind)
    requires StartsWith(m, Prefix(k))
    ensures ':' in m
  {
    assert m[5] == ':';
  }

  lemma PrefixedIsEntry(m: string, k: Kind)
    requires StartsWith(m, Prefix(k))
    ensures ':' in m && m == Entry(k, FileId(m))
  {
    assert m[5] == ':';
    assert m == Tag(k) + [':'] + m[6..];
    Split1Joined(Tag(k), ':', m[6..]);
  }

  /** Building an entry and reading it back: the prefix test finds the kind, and splitting at
      the first colon returns exactly the file id, even when the id itself holds colons. */
  lemma EntryRoundTrip(k: Kind, fileId: string)
    ensures KindOf(Entry(k, fileId)) == Some(k)
    ensures ':' in Entry(k, fileId) && FileId(Entry(k, fileId)) == fileId
  {
    KindOfPrefix(Entry(k, fileId), k);
    Split1Joined(Tag(k), ':', fileId);
  }

  /** The other direction: every tagged entry is the entry built from its kind and file id. */
  lemma TaggedIsEntry(m: string)
    requires Tagged(m)
    ensures ':' in m && m == Entry(KindOf(m).value, FileId(m))
  {
    PrefixedIsEntry(m, KindOf(m).value);
  }
}
