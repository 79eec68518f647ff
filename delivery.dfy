/** The publish step of the bot (bot.py:240-270) as a delivery plan: the ordered sends that
    `handle_publish` makes for a draft's media list and post text. */
module Delivery {
  import opened Wrappers
  import opened Text
  import opened Media

  /** One element of a media group; only the first carries the caption. */
  datatype AlbumItem =
    | InputMediaPhoto(fileId: string, caption: Option<string>)
    | InputMediaVideo(fileId: string, caption: Option<string>)

  /** One call to the transport. */
  datatype Action =
    | SendMessage(text: string)
    | SendPhoto(fileId: string, caption: string)
    | SendVideo(fileId: string, caption: string)
    | SendMediaGroup(items: seq<AlbumItem>)
    | SendAudio(fileId: string)
    | SendVoice(fileId: string)

  /** `m.startswith(('photo:', 'video:'))`, `m.startswith('audio:')`, `m.startswith('voice:')` */
  predicate IsVisual(m: string) { StartsWith(m, Prefix(Photo)) || StartsWith(m, Prefix(Video)) }
  predicate IsAudio(m: string) { StartsWith(m, Prefix(Audio)) }
  predicate IsVoice(m: string) { StartsWith(m, Prefix(Voice)) }

  predicate All<T>(xs: seq<T>, p: T -> bool)
  {
    forall i :: 0 <= i < |xs| ==> p(xs[i])
  }

  /** `[m for m in xs if keep(m)]` */
  function Filter<T>(xs: seq<T>, keep: T -> bool): (r: seq<T>)
    ensures |r| <= |xs|
  {
    if xs == [] then []
    else (if keep(xs[0]) then [xs[0]] else []) + Filter(xs[1..], keep)
  }

  /** Every element that survives the filter satisfies its predicate. */
  lemma {:induction false} FilterKeeps<T>(xs: seq<T>, keep: T -> bool)
    ensures All(Filter(xs, keep), keep)
  {
    if xs != [] {
      FilterKeeps(xs[1..], keep);
    }
  }

  /** `photos_videos`, `audios` and `voices` of bot.py:245-247 */
  function Visuals(media: seq<string>): (r: seq<string>)
    ensures All(r, IsVisual)
  {
    FilterKeeps(media, IsVisual);
    Filter(media, IsVisual)
  }

  function Audios(media: seq<string>): (r: seq<string>)
    ensures All(r, IsAudio)
  {
    FilterKeeps(media, IsAudio);
    Filter(media, IsAudio)
  }

  function Voices(media: seq<string>): (r: seq<string>)
    ensures All(r, IsVoice)
  {
    FilterKeeps(media, IsVoice);
    Filter(media, IsVoice)
  }

  /** The album built by the loop at bot.py:257-263: one item per photo/video entry, the
      caption only on the item with index 0. */
  function Album(visuals: seq<string>, caption: Option<string>): (r: seq<AlbumItem>)
    requires All(visuals, IsVisual)
    ensures |r| == |visuals|
    ensures |r| > 0 ==> r[0].caption == caption
    ensures forall i :: 0 < i < |r| ==> r[i].caption == None
  {
    if visuals == [] then [] else [Item(visuals[0], caption)] + Album(visuals[1..], None)
  }

  /** The album item of one photo or video entry (bot.py:259-262). */
  function Item(m: string, caption: Option<string>): (item: AlbumItem)
    requires IsVisual(m)
    ensures item.caption == caption
  {
    var k := if StartsWith(m, Prefix(Photo)) then Photo else Video;
    PrefixedHasColon(m, k);
    if k == Photo then InputMediaPhoto(FileId(m), caption) else InputMediaVideo(FileId(m), caption)
  }

  /** The separate send of one audio or voice entry (bot.py:267-270). */
  function Send(k: Kind, m: string): (a: Action)
    requires k == Audio || k == Voice
    requires StartsWith(m, Prefix(k))
    ensures if k == Audio then a.SendAudio? else a.SendVoice?
  {
    PrefixedHasColon(m, k);
    if k == Audio then SendAudio(FileId(m)) else SendVoice(FileId(m))
  }

  /** The separate sends for entries that all carry the prefix of `k`, in order. */
  function Separate(ms: seq<string>, k: Kind): (r: seq<Action>)
    requires k == Audio || k == Voice
    requires forall i :: 0 <= i < |ms| ==> StartsWith(ms[i], Prefix(k))
    ensures |r| == |ms|
    ensures forall i :: 0 <= i < |r| ==> if k == Audio then r[i].SendAudio? else r[i].SendVoice?
  {
    if ms == [] then [] else [Send(k, ms[0])] + Separate(ms[1..], k)
  }

  /** The sends `handle_publish` makes for a draft, or `None` where bot.py:250 would raise
      `IndexError`: a non-empty media list none of whose entries carries a kind prefix. */
  function Plan(media: seq<string>, postText: string): (r: Option<seq<Action>>)
    ensures r.None? <==> media != [] && Visuals(media) == [] && Audios(media) == [] && Voices(media) == []
    ensures media == [] ==> r == Some([SendMessage(postText)])
    ensures |Visuals(media)| == 1 && Audios(media) == [] && Voices(media) == [] ==>
      var m := Visuals(media)[0];
      ':' in m && r == Some([if StartsWith(m, Prefix(Photo)) then SendPhoto(FileId(m), postText)
                            else SendVideo(FileId(m), postText)])
  {
    if media == [] then Some([SendMessage(postText)])
    else
      var visuals, audios, voices := Visuals(media), Audios(media), Voices(media);
      if |visuals| <= 1 && audios == [] && voices == [] then
        if visuals == [] then None
        else
          var m := visuals[0];
          assert IsVisual(m);
          var k := if StartsWith(m, Prefix(Photo)) then Photo else Video;
          PrefixedHasColon(m, k);
          Some([if k == Photo then SendPhoto(FileId(m), postText) else SendVideo(FileId(m), postText)])
      else
        Some(Grouped(visuals, audios, voices, postText))
  }

  /** The branch of bot.py:255-270: the album of photos and videos (only when there is one),
      then each audio entry, then each voice entry. */
  function Grouped(visuals: seq<string>, audios: seq<string>, voices: seq<string>, postText: string): seq<Action>
    requires All(visuals, IsVisual) && All(audios, IsAudio) && All(voices, IsVoice)
  {
    var album := Album(visuals, Some(postText));
    (if album != [] then [SendMediaGroup(album)] else []) + Separate(audios, Audio) + Separate(voices, Voice)
  }

  /** `f` applied to every element, the results joined in order. */
  function FlatMap<T, U>(xs: seq<T>, f: T -> seq<U>): seq<U>
  {
    if xs == [] then [] else f(xs[0]) + FlatMap(xs[1..], f)
  }

  lemma {:induction false} FlatMapAppend<T, U>(xs: seq<T>, ys: seq<T>, f: T -> seq<U>)
    ensures FlatMap(xs + ys, f) == FlatMap(xs, f) + FlatMap(ys, f)
  {
    if xs == [] {
      assert xs + ys == ys;
    } else {
      FlatMapAppend(xs[1..], ys, f);
      assert (xs + ys)[0] == xs[0] && (xs + ys)[1..] == xs[1..] + ys;
    }
  }

  lemma FlatMapCons<T, U>(x: T, xs: seq<T>, f: T -> seq<U>)
    ensures FlatMap([x] + xs, f) == f(x) + FlatMap(xs, f)
  {
    assert ([x] + xs)[0] == x && ([x] + xs)[1..] == xs;
  }

  lemma FlatMapSingle<T, U>(x: T, f: T -> seq<U>)
    ensures FlatMap([x], f) == f(x)
  {
    assert [x][1..] == [];
  }

  /** The media entries a send delivers, written back in the stored `"kind:file_id"` form. */
  function ItemEntry(item: AlbumItem): string
  {
    match item
    case InputMediaPhoto(id, _) => Entry(Photo, id)
    case InputMediaVideo(id, _) => Entry(Video, id)
  }

  function ItemEntries(item: AlbumItem): seq<string>
  {
    [ItemEntry(item)]
  }

  function ActionEntries(a: Action): seq<string>
  {
    match a
    case SendMessage(_) => []
    case SendPhoto(id, _) => [Entry(Photo, id)]
    case SendVideo(id, _) => [Entry(Video, id)]
    case SendMediaGroup(items) => FlatMap(items, ItemEntries)
    case SendAudio(id) => [Entry(Audio, id)]
    case SendVoice(id) => [Entry(Voice, id)]
  }

  /** Everything a sequence of sends delivers, in order. */
  function Delivered(plan: seq<Action>): seq<string>
  {
    FlatMap(plan, ActionEntries)
  }

  /** The album holds exactly the photo/video entries, in their original order. */
  lemma {:induction false} AlbumDeliversVisuals(visuals: seq<string>, caption: Option<string>)
    requires All(visuals, IsVisual)
    ensures FlatMap(Album(visuals, caption), ItemEntries) == visuals
  {
    if visuals != [] {
      AlbumDeliversVisuals(visuals[1..], None);
      ItemDelivers(visuals[0], caption);
      FlatMapCons(Item(visuals[0], caption), Album(visuals[1..], None), ItemEntries);
      assert visuals == [visuals[0]] + visuals[1..];
    }
  }

  /** An album item delivers exactly its entry. */
  lemma ItemDelivers(m: string, caption: Option<string>)
    requires IsVisual(m)
    ensures ItemEntries(Item(m, caption)) == [m]
  {
    if StartsWith(m, Prefix(Photo)) {
      PrefixedIsEntry(m, Photo);
      assert Item(m, caption) == InputMediaPhoto(FileId(m), caption);
    } else {
      PrefixedIsEntry(m, Video);
      assert Item(m, caption) == InputMediaVideo(FileId(m), caption);
    }
  }

  /** A separate send delivers exactly its entry. */
  lemma SendDelivers(k: Kind, m: string)
    requires k == Audio || k == Voice
    requires StartsWith(m, Prefix(k))
    ensures ActionEntries(Send(k, m)) == [m]
  {
    PrefixedIsEntry(m, k);
    if k == Audio {
      assert Send(k, m) == SendAudio(FileId(m));
    } else {
      assert Send(k, m) == SendVoice(FileId(m));
    }
  }

  /** The separate audio (or voice) sends deliver exactly their entries, in order. */
  lemma {:induction false} SeparateDelivers(ms: seq<string>, k: Kind)
    requires k == Audio || k == Voice
    requires forall i :: 0 <= i < |ms| ==> StartsWith(ms[i], Prefix(k))
    ensures Delivered(Separate(ms, k)) == ms
  {
    if ms != [] {
      SeparateDelivers(ms[1..], k);
      SendDelivers(k, ms[0]);
      FlatMapCons(Send(k, ms[0]), Separate(ms[1..], k), ActionEntries);
      assert ms == [ms[0]] + ms[1..];
    }
  }

  /** Publishing delivers the photo/video entries first, then the audio entries, then the voice
      entries, each group in insertion order; no entry is sent twice and none is dropped. */
  lemma PlanDeliversByKind(media: seq<string>, postText: string)
    requires Plan(media, postText).Some?
    ensures Delivered(Plan(media, postText).value) == Visuals(media) + Audios(media) + Voices(media)
  {
    var plan := Plan(media, postText).value;
    var visuals, audios, voices := Visuals(media), Audios(media), Voices(media);
    if media == [] {
      FlatMapSingle(SendMessage(postText), ActionEntries);
    } else if |visuals| <= 1 && audios == [] && voices == [] {
      var m := visuals[0];
      assert IsVisual(m);
      if StartsWith(m, Prefix(Photo)) { PrefixedIsEntry(m, Photo); } else { PrefixedIsEntry(m, Video); }
      FlatMapSingle(plan[0], ActionEntries);
    } else {
      GroupedDelivers(visuals, audios, voices, postText);
    }
  }

  lemma GroupedDelivers(visuals: seq<string>, audios: seq<string>, voices: seq<string>, postText: string)
    requires All(visuals, IsVisual) && All(audios, IsAudio) && All(voices, IsVoice)
    ensures Delivered(Grouped(visuals, audios, voices, postText)) == visuals + audios + voices
  {
    var album := Album(visuals, Some(postText));
    var head: seq<Action> := if album != [] then [SendMediaGroup(album)] else [];
    AlbumDeliversVisuals(visuals, Some(postText));
    if album != [] {
      FlatMapSingle(head[0], ActionEntries);
    }
    SeparateDelivers(audios, Audio);
    SeparateDelivers(voices, Voice);
    FlatMapAppend(head, Separate(audios, Audio), ActionEntries);
    FlatMapAppend(head + Separate(audios, Audio), Separate(voices, Voice), ActionEntries);
  }

  /** Filtering by three predicates of which each element satisfies exactly one rearranges the
      sequence. */
  lemma {:induction false} FilterPartition<T>(xs: seq<T>, p: T -> bool, q: T -> bool, r: T -> bool)
    requires forall i :: 0 <= i < |xs| ==> if p(xs[i]) then !q(xs[i]) && !r(xs[i]) else q(xs[i]) != r(xs[i])
    ensures multiset(Filter(xs, p) + Filter(xs, q) + Filter(xs, r)) == multiset(xs)
  {
    if xs != [] {
      FilterPartition(xs[1..], p, q, r);
      FilterPartitionStep(xs, p, q, r);
    }
  }

  /** One element more: it lands in exactly one of the three filters. */
  lemma FilterPartitionStep<T>(xs: seq<T>, p: T -> bool, q: T -> bool, r: T -> bool)
    requires xs != []
    requires if p(xs[0]) then !q(xs[0]) && !r(xs[0]) else q(xs[0]) != r(xs[0])
    requires multiset(Filter(xs[1..], p) + Filter(xs[1..], q) + Filter(xs[1..], r)) == multiset(xs[1..])
    ensures multiset(Filter(xs, p) + Filter(xs, q) + Filter(xs, r)) == multiset(xs)
  {
    var x, rest := xs[0], xs[1..];
    assert multiset(xs) == multiset(rest) + multiset{x} by {
      assert xs == [x] + rest;
    }
    var a, b, c := multiset(Filter(rest, p)), multiset(Filter(rest, q)), multiset(Filter(rest, r));
    FilterMultisetCons(xs, p);
    FilterMultisetCons(xs, q);
    FilterMultisetCons(xs, r);
    InsertOne(a, b, c, x);
  }

  lemma FilterMultisetCons<T>(xs: seq<T>, keep: T -> bool)
    requires xs != []
    ensures multiset(Filter(xs, keep)) ==
            if keep(xs[0]) then multiset(Filter(xs[1..], keep)) + multiset{xs[0]} else multiset(Filter(xs[1..], keep))
  {
    FilterCons(xs, keep);
  }

  /** Adding one element to any one of three multisets adds it to their union. */
  lemma InsertOne<T>(a: multiset<T>, b: multiset<T>, c: multiset<T>, x: T)
    ensures (a + multiset{x}) + b + c == a + b + c + multiset{x}
    ensures a + (b + multiset{x}) + c == a + b + c + multiset{x}
    ensures a + b + (c + multiset{x}) == a + b + c + multiset{x}
  {
  }

  lemma FilterCons<T>(xs: seq<T>, keep: T -> bool)
    requires xs != []
    ensures Filter(xs, keep) == if keep(xs[0]) then [xs[0]] + Filter(xs[1..], keep) else Filter(xs[1..], keep)
  {
  }

  /** A tagged entry falls in exactly one of the three groups. */
  lemma OneGroup(m: string)
    requires Tagged(m)
    ensures if IsVisual(m) then !IsAudio(m) && !IsVoice(m) else IsAudio(m) != IsVoice(m)
  {
    var k := KindOf(m).value;
    forall k' | StartsWith(m, Prefix(k')) ensures k' == k {
      KindOfPrefix(m, k');
    }
  }

  /** The three groups together are a rearrangement of the media list when every entry is tagged. */
  lemma PartitionIsPermutation(media: seq<string>)
    requires forall i :: 0 <= i < |media| ==> Tagged(media[i])
    ensures multiset(Visuals(media) + Audios(media) + Voices(media)) == multiset(media)
  {
    forall i | 0 <= i < |media|
      ensures if IsVisual(media[i]) then !IsAudio(media[i]) && !IsVoice(media[i])
              else IsAudio(media[i]) != IsVoice(media[i])
    {
      OneGroup(media[i]);
    }
    FilterPartition(media, IsVisual, IsAudio, IsVoice);
  }

  /** For a media list built by the bot, publishing never fails to plan, and sends every attached
      entry exactly once. */
  lemma PlanSendsEachEntryOnce(media: seq<string>, postText: string)
    requires forall i :: 0 <= i < |media| ==> Tagged(media[i])
    ensures Plan(media, postText).Some?
    ensures multiset(Delivered(Plan(media, postText).value)) == multiset(media)
  {
    PartitionIsPermutation(media);
    if media != [] {
      assert media[0] in multiset(Visuals(media) + Audios(media) + Voices(media));
    }
    PlanDeliversByKind(media, postText);
  }

  /** The texts a sequence of sends carries: message bodies and captions, in order. */
  function ItemCaption(item: AlbumItem): seq<string>
  {
    if item.caption.Some? then [item.caption.value] else []
  }

  function ActionTexts(a: Action): seq<string>
  {
    match a
    case SendMessage(text) => [text]
    case SendPhoto(_, caption) => [caption]
    case SendVideo(_, caption) => [caption]
    case SendMediaGroup(items) => FlatMap(items, ItemCaption)
    case SendAudio(_) => []
    case SendVoice(_) => []
  }

  function Texts(plan: seq<Action>): seq<string>
  {
    FlatMap(plan, ActionTexts)
  }

  lemma {:induction false} SeparateCarriesNoText(ms: seq<string>, k: Kind)
    requires k == Audio || k == Voice
    requires forall i :: 0 <= i < |ms| ==> StartsWith(ms[i], Prefix(k))
    ensures Texts(Separate(ms, k)) == []
  {
    if ms != [] {
      SeparateCarriesNoText(ms[1..], k);
    }
  }

  lemma {:induction false} UncaptionedAlbum(items: seq<AlbumItem>)
    requires forall i :: 0 <= i < |items| ==> items[i].caption.None?
    ensures FlatMap(items, ItemCaption) == []
  {
    if items != [] {
      UncaptionedAlbum(items[1..]);
    }
  }

  /** The choice at bot.py:249 between one captioned send and an album, in both directions: the
      plan holds a media group exactly when there are two or more photos/videos, or one beside an
      audio or voice entry, and that group is then the first send and holds the album of all the
      photos and videos with the post as the first caption. Without photos or videos no group is
      sent, not even an empty one (the `if media_group:` test). */
  lemma PlanGroupsVisuals(media: seq<string>, postText: string)
    requires Plan(media, postText).Some?
    ensures var plan := Plan(media, postText).value;
      var visuals := Visuals(media);
      var grouped := |visuals| >= 2 || (visuals != [] && (Audios(media) != [] || Voices(media) != []));
      && ((exists i :: 0 <= i < |plan| && plan[i].SendMediaGroup?) <==> grouped)
      && (grouped ==> plan[0] == SendMediaGroup(Album(visuals, Some(postText))))
  {
    var plan := Plan(media, postText).value;
    var visuals, audios, voices := Visuals(media), Audios(media), Voices(media);
    if media == [] || (|visuals| <= 1 && audios == [] && voices == []) {
      assert |plan| == 1 && !plan[0].SendMediaGroup?;
    } else {
      GroupedAlbum(visuals, audios, voices, postText);
    }
  }

  lemma GroupedAlbum(visuals: seq<string>, audios: seq<string>, voices: seq<string>, postText: string)
    requires All(visuals, IsVisual) && All(audios, IsAudio) && All(voices, IsVoice)
    ensures var plan := Grouped(visuals, audios, voices, postText);
      && ((exists i :: 0 <= i < |plan| && plan[i].SendMediaGroup?) <==> visuals != [])
      && (visuals != [] ==> plan[0] == SendMediaGroup(Album(visuals, Some(postText))))
  {
    var album := Album(visuals, Some(postText));
    var a, v := Separate(audios, Audio), Separate(voices, Voice);
    var plan := Grouped(visuals, audios, voices, postText);
    if visuals != [] {
      assert plan == [SendMediaGroup(album)] + a + v;
      assert plan[0] == SendMediaGroup(album);
    } else {
      assert plan == a + v;
      forall i | 0 <= i < |plan|
        ensures !plan[i].SendMediaGroup?
      {
        if i < |a| {
          assert plan[i] == a[i];
        } else {
          assert plan[i] == v[i - |a|];
        }
      }
    }
  }

  /** The post text is delivered exactly once, as the message body or the caption of the first
      photo/video, whenever the draft has no media or has a photo or video; when the media are
      only audio and voice entries, the text is never delivered. */
  lemma PlanCarriesTextOnce(media: seq<string>, postText: string)
    requires Plan(media, postText).Some?
    ensures Texts(Plan(media, postText).value) ==
            if media == [] || Visuals(media) != [] then [postText] else []
  {
    var plan := Plan(media, postText).value;
    var visuals, audios, voices := Visuals(media), Audios(media), Voices(media);
    if media == [] || (|visuals| <= 1 && audios == [] && voices == []) {
      FlatMapSingle(plan[0], ActionTexts);
    } else {
      GroupedTexts(visuals, audios, voices, postText);
    }
  }

  lemma GroupedTexts(visuals: seq<string>, audios: seq<string>, voices: seq<string>, postText: string)
    requires All(visuals, IsVisual) && All(audios, IsAudio) && All(voices, IsVoice)
    ensures Texts(Grouped(visuals, audios, voices, postText)) == if visuals != [] then [postText] else []
  {
    var album := Album(visuals, Some(postText));
    var head: seq<Action> := if album != [] then [SendMediaGroup(album)] else [];
    if album != [] {
      UncaptionedAlbum(album[1..]);
      assert album == [album[0]] + album[1..];
      FlatMapAppend([album[0]], album[1..], ItemCaption);
      FlatMapSingle(album[0], ItemCaption);
      FlatMapSingle(head[0], ActionTexts);
    }
    SeparateCarriesNoText(audios, Audio);
    SeparateCarriesNoText(voices, Voice);
    FlatMapAppend(head, Separate(audios, Audio), ActionTexts);
    FlatMapAppend(head + Separate(audios, Audio), Separate(voices, Voice), ActionTexts);
  }

  /** Position of a send in the kind order of bot.py:264-270: album, then audio, then voice. */
  function Stage(a: Action): nat
  {
    match a
    case SendAudio(_) => 1
    case SendVoice(_) => 2
    case _ => 0
  }

  /** No audio send precedes the album, and no voice send precedes an audio send. */
  lemma PlanStagesOrdered(media: seq<string>, postText: string)
    requires Plan(media, postText).Some?
    ensures var plan := Plan(media, postText).value;
      forall i, j :: 0 <= i < j < |plan| ==> Stage(plan[i]) <= Stage(plan[j])
    ensures var plan := Plan(media, postText).value;
      forall i :: 0 < i < |plan| ==> !plan[i].SendMediaGroup?
  {
    var visuals, audios, voices := Visuals(media), Audios(media), Voices(media);
    if media != [] && !(|visuals| <= 1 && audios == [] && voices == []) {
      GroupedStages(visuals, audios, voices, postText);
    }
  }

  lemma GroupedStages(visuals: seq<string>, audios: seq<string>, voices: seq<string>, postText: string)
    requires All(visuals, IsVisual) && All(audios, IsAudio) && All(voices, IsVoice)
    ensures var plan := Grouped(visuals, audios, voices, postText);
      forall i, j :: 0 <= i < j < |plan| ==> Stage(plan[i]) <= Stage(plan[j])
    ensures var plan := Grouped(visuals, audios, voices, postText);
      forall i :: 0 < i < |plan| ==> !plan[i].SendMediaGroup?
  {
    var album := Album(visuals, Some(postText));
    var head: seq<Action> := if album != [] then [SendMediaGroup(album)] else [];
    var a, v := Separate(audios, Audio), Separate(voices, Voice);
    var plan := head + a + v;
    assert plan == Grouped(visuals, audios, voices, postText);
    assert |head| <= 1;
    forall i | 0 <= i < |plan|
      ensures Stage(plan[i]) == StageAt(i, |head|, |a|)
      ensures |head| <= i ==> !plan[i].SendMediaGroup?
    {
      if i >= |head| + |a| {
        assert plan[i] == v[i - |head| - |a|];
      } else if i >= |head| {
        assert plan[i] == a[i - |head|];
      }
    }
  }

  /** The stage of position `i` in a plan made of `h` album sends, `n` audio sends and voice sends. */
  function StageAt(i: nat, h: nat, n: nat): nat
  {
    if i < h then 0 else if i < h + n then 1 else 2
  }
}
