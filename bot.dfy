/** The post-composition workflow of bot.py: the in-memory session store `SESSIONS`, the per-user
    FSM state (`PostStates`), and one method per handler that reads or changes them. What the
    language model writes, what the transport accepts and the date found in a text are inputs. */
module Bot {
  import opened Wrappers
  import opened Text
  import opened Media
  import opened Delivery
  import opened TimeParser

  /** The record kept per user in `SESSIONS` (bot.py:93-97). */
  datatype Session = Session(originalText: string, postText: string, media: seq<string>)

  /** The two states of `PostStates`; a user with no entry has no state (`state.clear()`). */
  datatype PostState = WaitingForEdit | WaitingForMedia

  /** The outcome of a call to the language model: the text it returned, or an exception. */
  datatype Generation = Generated(post: string) | GenerationRaised

  /** An incoming message as `handle_media_upload` inspects it (`message.photo[-1]` for photos). */
  datatype Incoming =
    | PhotoMessage(fileId: string)
    | VideoMessage(fileId: string)
    | AudioMessage(fileId: string)
    | VoiceMessage(fileId: string)
    | OtherMessage

  /** What `handle_media_upload` answers: the session was missing, the message held no media,
      or the count `n/MAX_IMAGES` shown afterwards, preceded by the limit warning when it was hit. */
  datatype UploadReply = SessionNotFound | NotMedia | Counted(count: nat, limitWarning: bool)

  /** How a publish attempt ends; `sent` lists the sends the transport accepted. */
  datatype PublishReply =
    | PostNotFound
    | ChannelNotConfigured
    | PublishFailed(sent: seq<Action>)
    | Published(sent: seq<Action>)

  /** The checks `message.photo`, `message.video`, `message.audio`, `message.voice`, in that order. */
  function MediaOf(msg: Incoming): Option<(Kind, string)>
  {
    match msg
    case PhotoMessage(id) => Some((Photo, id))
    case VideoMessage(id) => Some((Video, id))
    case AudioMessage(id) => Some((Audio, id))
    case VoiceMessage(id) => Some((Voice, id))
    case OtherMessage => None
  }

  /** `media[:n]` with Python's slice semantics: a negative bound counts from the end. */
  function SliceTo(media: seq<string>, n: int): (r: seq<string>)
    ensures |r| <= |media| && r == media[..|r|]
    ensures 0 <= n ==> |r| == if n < |media| then n else |media|
    ensures n < 0 ==> |r| == if |media| + n < 0 then 0 else |media| + n
  {
    var end := if 0 <= n then n else |media| + n;
    media[..if end < 0 then 0 else if end < |media| then end else |media|]
  }

  /** The media list after one photo/video/audio/voice upload (bot.py:175-200): the entry is
      appended only below the limit, and the list is then cut to `MAX_IMAGES`. */
  function AfterUpload(media: seq<string>, k: Kind, fileId: string, maxImages: int): (r: seq<string>)
    ensures forall i :: 0 <= i < |r| ==> r[i] in media || r[i] == Entry(k, fileId)
    ensures 0 <= maxImages ==> |r| <= maxImages
    ensures 0 <= maxImages && |media| < maxImages ==> r == media + [Entry(k, fileId)]
    ensures 0 <= maxImages && |media| == maxImages ==> r == media
  {
    SliceTo(if |media| >= maxImages then media else media + [Entry(k, fileId)], maxImages)
  }

  /** The media list after a series of uploads. */
  function UploadAll(media: seq<string>, uploads: seq<(Kind, string)>, maxImages: int): seq<string>
    decreases uploads
  {
    if uploads == [] then media
    else UploadAll(AfterUpload(media, uploads[0].0, uploads[0].1, maxImages), uploads[1..], maxImages)
  }

  function Entries(uploads: seq<(Kind, string)>): (r: seq<string>)
    ensures |r| == |uploads|
  {
    if uploads == [] then [] else [Entry(uploads[0].0, uploads[0].1)] + Entries(uploads[1..])
  }

  /** Uploads are kept in the order they arrive until the limit is reached; every later upload is
      refused and leaves the list as it was. */
  lemma {:induction false} UploadsFillToLimit(media: seq<string>, uploads: seq<(Kind, string)>, maxImages: int)
    requires 0 <= maxImages && |media| <= maxImages
    ensures var n := if |uploads| < maxImages - |media| then |uploads| else maxImages - |media|;
      UploadAll(media, uploads, maxImages) == media + Entries(uploads[..n])
    decreases uploads
  {
    if uploads != [] {
      var (k, id) := uploads[0];
      var rest := uploads[1..];
      if |media| < maxImages {
        var next := media + [Entry(k, id)];
        UploadsFillToLimit(next, rest, maxImages);
        var n := if |uploads| < maxImages - |media| then |uploads| else maxImages - |media|;
        assert uploads[..n][1..] == rest[..n - 1];
        assert Entries(uploads[..n]) == [Entry(k, id)] + Entries(rest[..n - 1]);
      } else {
        UploadsFillToLimit(media, rest, maxImages);
        assert uploads[..0] == [] && rest[..0] == [];
      }
    }
  }

  /** `f"\n\n[Дата/время]: {format_dt_ru(dt)}"` when a date was found. */
  function DateNote(dt: Option<DateTime>): string
    requires dt.Some? ==> ValidFields(dt.value)
  {
    if dt.Some? then "\n\n[Дата/время]: " + FormatDtRu(dt.value) else ""
  }

  /** `sess.get('original_text') or sess.get('post_text', '')` */
  function StyleSource(sess: Session): (text: string)
    ensures sess.originalText != [] ==> text == sess.originalText
    ensures sess.originalText == [] ==> text == sess.postText
  {
    if sess.originalText != [] then sess.originalText else sess.postText
  }

  /** What every stored session satisfies: its original text is the non-empty message it was
      created from (bot.py:78, 93), its media entries carry a kind prefix, and there are at most
      `MAX_IMAGES` of them when the limit is not negative. */
  predicate SessionOk(sess: Session, maxImages: int)
  {
    sess.originalText != [] &&
    (forall i :: 0 <= i < |sess.media| ==> Tagged(sess.media[i])) &&
    (0 <= maxImages ==> |sess.media| <= maxImages)
  }

  /** An upload keeps a stored session valid: the new entry carries its kind prefix and the list
      stays within the limit. */
  lemma UploadKeepsOk(sess: Session, k: Kind, fileId: string, maxImages: int)
    requires SessionOk(sess, maxImages)
    ensures SessionOk(sess.(media := AfterUpload(sess.media, k, fileId, maxImages)), maxImages)
  {
    EntryRoundTrip(k, fileId);
    var media := AfterUpload(sess.media, k, fileId, maxImages);
    forall i | 0 <= i < |media|
      ensures Tagged(media[i])
    {
      if media[i] in sess.media {
        var j :| 0 <= j < |sess.media| && sess.media[j] == media[i];
      }
    }
  }

  class PostBot {
    /** `MAX_IMAGES`, read once from the environment. */
    const maxImages: int
    /** `TELEGRAM_CHANNEL_ID`; empty when it is not set. */
    const channel: string
    /** `SESSIONS` */
    var sessions: map<int, Session>
    /** The FSM state of each user that has one. */
    var states: map<int, PostState>

    ghost predicate Valid()
      reads this
    {
      forall uid :: uid in sessions ==> SessionOk(sessions[uid], maxImages)
    }

    /** A fresh process: no sessions, no states. */
    constructor (maxImages: int, channel: string)
      ensures Valid()
      ensures this.maxImages == maxImages && this.channel == channel
      ensures sessions == map[] && states == map[]
    {
      this.maxImages := maxImages;
      this.channel := channel;
      sessions := map[];
      states := map[];
    }

    /** `generate_post` (bot.py:76-100): `text` is the message text, `dt` the date found in it and
        `gen` what the model returned for `prompt`. A non-empty post replaces the user's session
        with a fresh one without media; an empty post or an exception keeps everything. */
    method GeneratePost(uid: int, text: string, dt: Option<DateTime>, gen: Generation)
      returns (prompt: Option<string>)
      requires Valid()
      requires dt.Some? ==> ValidFields(dt.value)
      modifies this
      ensures Valid() && states == old(states)
      ensures prompt == if text == [] then None else Some(text + DateNote(dt))
      ensures sessions ==
        if text != [] && gen.Generated? && gen.post != []
        then old(sessions)[uid := Session(text, gen.post, [])]
        else old(sessions)
    {
      if text == [] {
        return None;
      }
      prompt := Some(text + DateNote(dt));
      if gen.GenerationRaised? || gen.post == [] {
        return;
      }
      sessions := sessions[uid := Session(text, gen.post, [])];
    }

    /** `handle_style` (bot.py:119-134) for callback data `data`: the post is regenerated from the
        original text, which a stored session never has empty, in the style named after `style_`,
        and only `post_text` changes. `gen` is the model's answer; when it raises nothing changes. */
    method HandleStyle(uid: int, data: string, dt: Option<DateTime>, gen: Generation)
      returns (request: Option<(string, string)>)
      requires Valid()
      requires StartsWith(data, "style_")
      requires dt.Some? ==> ValidFields(dt.value)
      modifies this
      ensures Valid() && states == old(states)
      ensures uid !in old(sessions) ==> request == None && sessions == old(sessions)
      ensures uid in old(sessions) ==>
        && '_' in data
        && request == Some((StyleSource(old(sessions)[uid]) + DateNote(dt), Split1(data, '_')[1]))
        && request.value.0 == old(sessions)[uid].originalText + DateNote(dt)
        && sessions == if gen.Generated?
                       then old(sessions)[uid := old(sessions)[uid].(postText := gen.post)]
                       else old(sessions)
    {
      if uid !in sessions {
        return None;
      }
      var sess := sessions[uid];
      assert data[5] == '_';
      var style := Split1(data, '_')[1];
      var textSource := StyleSource(sess) + DateNote(dt);
      request := Some((textSource, style));
      if gen.Generated? {
        sessions := sessions[uid := sess.(postText := gen.post)];
      }
    }

    /** `handle_edit` (bot.py:137-140) */
    method HandleEdit(uid: int)
      requires Valid()
      modifies this
      ensures Valid() && sessions == old(sessions)
      ensures states == old(states)[uid := WaitingForEdit]
    {
      states := states[uid := WaitingForEdit];
    }

    /** `handle_edit_text` (bot.py:143-154): the message text becomes the post verbatim, and the
        state is cleared; without a session only the state is cleared. */
    method HandleEditText(uid: int, text: string) returns (found: bool)
      requires Valid()
      modifies this
      ensures Valid() && states == old(states) - {uid}
      ensures found == (uid in old(sessions))
      ensures sessions == if found then old(sessions)[uid := old(sessions)[uid].(postText := text)]
                          else old(sessions)
    {
      found := uid in sessions;
      if found {
        sessions := sessions[uid := sessions[uid].(postText := text)];
      }
      states := states - {uid};
    }

    /** `handle_add_media` (bot.py:157-163) */
    method HandleAddMedia(uid: int)
      requires Valid()
      modifies this
      ensures Valid() && sessions == old(sessions)
      ensures states == old(states)[uid := WaitingForMedia]
    {
      states := states[uid := WaitingForMedia];
    }

    /** `handle_media_upload` (bot.py:166-204) */
    method HandleMediaUpload(uid: int, msg: Incoming) returns (reply: UploadReply)
      requires Valid()
      modifies this
      ensures Valid()
      ensures uid !in old(sessions) ==>
        reply == SessionNotFound && sessions == old(sessions) && states == old(states) - {uid}
      ensures uid in old(sessions) && MediaOf(msg).None? ==>
        reply == NotMedia && sessions == old(sessions) && states == old(states)
      ensures uid in old(sessions) && MediaOf(msg).Some? ==>
        var (k, id) := MediaOf(msg).value;
        var media := AfterUpload(old(sessions)[uid].media, k, id, maxImages);
        && states == old(states)
        && sessions == old(sessions)[uid := old(sessions)[uid].(media := media)]
        && reply == Counted(|media|, |old(sessions)[uid].media| >= maxImages)
    {
      if uid !in sessions {
        states := states - {uid};
        return SessionNotFound;
      }
      var sess := sessions[uid];
      var media := sess.media;
      if MediaOf(msg).None? {
        return NotMedia;
      }
      var (k, id) := MediaOf(msg).value;
      var warned := |media| >= maxImages;
      if !warned {
        media := media + [Entry(k, id)];
      }
      media := SliceTo(media, maxImages);
      assert media == AfterUpload(sess.media, k, id, maxImages);
      UploadKeepsOk(sess, k, id, maxImages);
      sessions := sessions[uid := sess.(media := media)];
      reply := Counted(|media|, warned);
    }

    /** `handle_media_anytime` (bot.py:103-111): a photo, video, audio or voice message is an
        upload only while the user is waiting for media; otherwise it changes nothing. */
    method HandleMediaAnytime(uid: int, msg: Incoming) returns (reply: Option<UploadReply>)
      requires Valid()
      requires !msg.OtherMessage?
      modifies this
      ensures Valid()
      ensures (uid !in old(states) || old(states)[uid] != WaitingForMedia) ==>
        reply == None && sessions == old(sessions) && states == old(states)
      ensures uid in old(states) && old(states)[uid] == WaitingForMedia && uid !in old(sessions) ==>
        reply == Some(SessionNotFound) && sessions == old(sessions) && states == old(states) - {uid}
      ensures uid in old(states) && old(states)[uid] == WaitingForMedia && uid in old(sessions) ==>
        var (k, id) := MediaOf(msg).value;
        var media := AfterUpload(old(sessions)[uid].media, k, id, maxImages);
        && states == old(states)
        && sessions == old(sessions)[uid := old(sessions)[uid].(media := media)]
        && reply == Some(Counted(|media|, |old(sessions)[uid].media| >= maxImages))
    {
      if uid in states && states[uid] == WaitingForMedia {
        var r := HandleMediaUpload(uid, msg);
        reply := Some(r);
      } else {
        reply := None;
      }
    }

    /** `handle_media_done` (bot.py:207-216): clears the state and shows the post with its media
        count, or a placeholder text and 0 when there is no session. */
    method HandleMediaDone(uid: int) returns (text: string, count: nat)
      requires Valid()
      modifies this
      ensures Valid() && sessions == old(sessions) && states == old(states) - {uid}
      ensures uid in sessions ==> text == sessions[uid].postText && count == |sessions[uid].media|
      ensures uid !in sessions ==> text == MissingText && count == 0
      ensures 0 <= maxImages ==> count <= maxImages
    {
      states := states - {uid};
      if uid in sessions {
        text, count := sessions[uid].postText, |sessions[uid].media|;
      } else {
        text, count := MissingText, 0;
      }
    }

    /** `handle_publish` (bot.py:219-276). The transport accepts the first `accepted` sends and
        raises on the next one; `confirmed` says whether the final "published" message edit
        succeeds. The session is removed only when every send and that edit succeed; in every
        other case the session and all states are as they were. */
    method HandlePublish(uid: int, accepted: nat, confirmed: bool) returns (reply: PublishReply)
      requires Valid()
      modifies this
      ensures Valid() && states == old(states)
      ensures (uid !in old(sessions) || old(sessions)[uid].postText == []) ==> reply == PostNotFound
      ensures uid in old(sessions) && old(sessions)[uid].postText != [] && channel == [] ==>
        reply == ChannelNotConfigured
      ensures uid in old(sessions) && old(sessions)[uid].postText != [] && channel != [] ==>
        var plan := Plan(old(sessions)[uid].media, old(sessions)[uid].postText);
        && plan.Some?
        && (accepted < |plan.value| ==> reply == PublishFailed(plan.value[..accepted]))
        && (|plan.value| <= accepted ==>
              reply == if confirmed then Published(plan.value) else PublishFailed(plan.value))
      ensures sessions == if reply.Published? then old(sessions) - {uid} else old(sessions)
    {
      if uid !in sessions || sessions[uid].postText == [] {
        return PostNotFound;
      }
      if channel == [] {
        return ChannelNotConfigured;
      }
      var sess := sessions[uid];
      // stored media always carry a kind prefix, so `photos_videos[0]` cannot raise
      PlanSendsEachEntryOnce(sess.media, sess.postText);
      var plan := Plan(sess.media, sess.postText);
      var sent, delivered := Deliver(plan.value, accepted);
      if !delivered || !confirmed {
        return PublishFailed(sent);
      }
      sessions := sessions - {uid};
      reply := Published(sent);
    }

    /** `handle_cancel` (bot.py:287-291): drops the session, if any, and clears the state. */
    method HandleCancel(uid: int)
      requires Valid()
      modifies this
      ensures Valid()
      ensures sessions == old(sessions) - {uid} && states == old(states) - {uid}
    {
      sessions := sessions - {uid};
      states := states - {uid};
    }
  }

  /** Runs the sends of a plan in order against a transport that accepts the first `accepted` of
      them and raises on the next: the sends made, and whether all of them went through. */
  method Deliver(actions: seq<Action>, accepted: nat) returns (sent: seq<Action>, delivered: bool)
    ensures delivered <==> |actions| <= accepted
    ensures sent == if delivered then actions else actions[..accepted]
  {
    sent := [];
    var i := 0;
    while i < |actions|
      invariant 0 <= i <= |actions| && i <= accepted
      invariant sent == actions[..i]
    {
      if i == accepted {
        return sent, false;
      }
      sent := sent + [actions[i]];
      i := i + 1;
    }
    assert actions[..i] == actions;
    delivered := true;
  }

  /** Cancelling twice in a row ends where cancelling once does. */
  method CancelTwice(bot: PostBot, uid: int)
    requires bot.Valid()
    modifies bot
    ensures bot.Valid()
    ensures bot.sessions == old(bot.sessions) - {uid} && bot.states == old(bot.states) - {uid}
  {
    bot.HandleCancel(uid);
    bot.HandleCancel(uid);
  }

  /** The edit button followed by a text message sets the post to exactly that text, keeps the
      original text and the media, and leaves the user without a state. */
  method EditThenText(bot: PostBot, uid: int, text: string)
    requires bot.Valid() && uid in bot.sessions
    modifies bot
    ensures bot.Valid() && uid !in bot.states
    ensures bot.sessions == old(bot.sessions)[uid := old(bot.sessions)[uid].(postText := text)]
  {
    bot.HandleEdit(uid);
    var found := bot.HandleEditText(uid, text);
  }

  /** A publish the transport interrupts keeps the draft, so a second attempt that goes through
      publishes the whole plan and only then removes the draft. */
  method PublishRetry(bot: PostBot, uid: int, accepted: nat) returns (first: PublishReply, second: PublishReply)
    requires bot.Valid() && uid in bot.sessions && bot.sessions[uid].postText != [] && bot.channel != []
    requires accepted < |StoredPlan(bot.sessions[uid], bot.maxImages)|
    modifies bot
    ensures var plan := StoredPlan(old(bot.sessions)[uid], bot.maxImages);
      first == PublishFailed(plan[..accepted]) && second == Published(plan)
    ensures bot.Valid() && bot.sessions == old(bot.sessions) - {uid} && bot.states == old(bot.states)
  {
    var plan := StoredPlan(bot.sessions[uid], bot.maxImages);
    first := bot.HandlePublish(uid, accepted, true);
    second := bot.HandlePublish(uid, |plan|, true);
  }

  /** The sends publishing a stored session makes: there always are some, and they deliver every
      attached entry exactly once. */
  function StoredPlan(sess: Session, maxImages: int): (plan: seq<Action>)
    requires SessionOk(sess, maxImages)
    ensures Plan(sess.media, sess.postText) == Some(plan)
    ensures multiset(Delivered(plan)) == multiset(sess.media)
  {
    PlanSendsEachEntryOnce(sess.media, sess.postText);
    Plan(sess.media, sess.postText).value
  }

  /** The text `handle_media_done` shows without a session. */
  const MissingText: string := "Текст отсутствует. Отправьте сообщение заново."
}
