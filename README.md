# Post-composition bot, modelled in Dafny

A Telegram bot turns an operator's message into a channel post: a language model writes the
post, the operator restyles it, edits it by hand or attaches up to `MAX_IMAGES` photos, videos,
audio files or voice notes, and finally publishes it to the configured channel or cancels.
This project models the bot's core:

- the session store `SESSIONS` (user id → original text, post text, media list) and the per-user
  FSM state (`waiting_for_edit`, `waiting_for_media`, or none), as the class `Bot.PostBot` with
  one method per handler;
- media entries, stored as strings `"kind:file_id"`, and the prefix tests and `split(':', 1)`
  used to read them (`Media`, `Text`);
- the publish step as a pure delivery plan (`Delivery.Plan`): a text message, a single photo or
  video, or an album of the photos and videos followed by separate audio and voice sends;
- the date annotation: choosing among the dates found in a text (the nearest upcoming one,
  otherwise the latest past one) and `format_dt_ru` (`TimeParser`).

Files: `wrappers.dfy` (Option), `text.dfy` (Python string helpers), `media.dfy`,
`delivery.dfy`, `time_parser.dfy`, `bot.dfy`.

What the language model writes, whether the transport accepts a send, the dates the date search
finds and the current time are parameters of the methods that use them.

Behaviour of the code worth noting, which the model follows:

- at the media limit the code warns and then still answers with the count and re-cuts the list
  to `MAX_IMAGES` (`Counted(n, true)`), rather than doing nothing;
- publishing does not reset the FSM state; only the session is removed;
- `handle_style` has no exception handler and stores whatever the model returns, an empty text
  included (publishing then reports the post as missing).

## Model

| member | source | states |
|---|---|---|
| `Text.Split1` | bot.py:252 | `s.split(sep, 1)`: one piece iff `sep` does not occur; otherwise the part before the first `sep` (free of `sep`) and the rest, which rejoin to `s` |
| `Media.KindOf` | bot.py:245-247 | an entry recognised as kind `k` starts with `k`'s prefix (`"photo:"`, `"video:"`, `"audio:"` or `"voice:"`), and an entry recognised as none starts with none of them |
| `Media.KindOfPrefix` | bot.py:245-247 | conversely an entry that starts with `k`'s prefix is recognised as `k`: the four prefixes exclude each other |
| `Media.EntryRoundTrip` | bot.py:180-195 | for an entry built as `f"{kind}:{file_id}"`, the prefix test finds `kind` and `split(':', 1)[1]` gives back exactly `file_id`, even when it holds colons |
| `Media.PrefixedIsEntry` | bot.py:252-270 | an entry that starts with `k`'s prefix contains a colon, so `split(':', 1)[1]` is defined, and it is exactly the entry built from `k` and that file id |
| `Media.TaggedIsEntry` | bot.py:252-270 | conversely every entry with a kind prefix is the entry built from that kind and its `split(':', 1)[1]` |
| `Delivery.FilterKeeps` | bot.py:245-247 | a list comprehension with a condition keeps only elements that meet it |
| `Delivery.Visuals` | bot.py:245 | `photos_videos` holds only entries starting with `"photo:"` or `"video:"` |
| `Delivery.Audios` | bot.py:246 | `audios` holds only entries starting with `"audio:"` |
| `Delivery.Voices` | bot.py:247 | `voices` holds only entries starting with `"voice:"` |
| `Delivery.Album` | bot.py:256-263 | one album item per photo/video entry; item 0 carries the post text as caption, every other item has none |
| `Delivery.Item` | bot.py:258-263 | the album item of one photo/video entry carries exactly the caption it is given |
| `Delivery.ItemDelivers` | bot.py:258-263 | that item sends exactly its entry: a photo entry as a photo and a video entry as a video, with the file id after the first colon |
| `Delivery.Send` | bot.py:267-270 | the separate send of an audio entry is an audio send, of a voice entry a voice send |
| `Delivery.SendDelivers` | bot.py:267-270 | that send delivers exactly its entry |
| `Delivery.Separate` | bot.py:267-270 | one separate send per audio (voice) entry, and only audio (voice) sends |
| `Delivery.Plan` | bot.py:242-270 | the plan fails (the `IndexError` of `photos_videos[0]`) exactly when media is non-empty and no entry has a kind prefix; no media gives exactly one text send of the post; one photo/video and no audio/voice gives exactly one photo or video send captioned with the post |
| `Delivery.PlanDeliversByKind` | bot.py:245-270 | the plan delivers the photo/video entries, then the audio entries, then the voice entries, each group in insertion order; audio and voice never enter the album |
| `Delivery.FilterPartition` | bot.py:245-247 | filtering by three conditions of which each element meets exactly one splits a list into three parts that together rearrange it |
| `Delivery.OneGroup` | bot.py:245-247 | an entry with a kind prefix lands in exactly one of `photos_videos`, `audios` and `voices` |
| `Delivery.PartitionIsPermutation` | bot.py:245-247 | when every entry has a kind prefix, the three groups together are a rearrangement of the media list |
| `Delivery.PlanSendsEachEntryOnce` | bot.py:242-270 | for media the bot stored, the plan always exists and sends every attached entry exactly once |
| `Delivery.PlanCarriesTextOnce` | bot.py:243-263 | the post text is sent exactly once (as text or as the first caption) when there is no media or some photo/video; with only audio/voice it is never sent |
| `Delivery.PlanGroupsVisuals` | bot.py:249-265 | the plan holds a media group exactly when there are two or more photos/videos, or one beside an audio or voice entry; that group is then the first send and is the album of all photos/videos with the post as first caption; without photos/videos no group, not even an empty one, is sent |
| `Delivery.GroupedAlbum` | bot.py:255-270 | in the album branch a media group is sent iff there is a photo or video, and then first |
| `Delivery.PlanStagesOrdered` | bot.py:264-270 | no audio send precedes the album, no voice send precedes an audio send, and the album can only be the first send |
| `Bot.SliceTo` | bot.py:200 | `media[:n]` is a prefix of `media` of length `min(n, len)` for `n >= 0` and `max(0, len + n)` for negative `n` |
| `Bot.AfterUpload` | bot.py:175-200 | below the limit exactly one entry is appended at the end and earlier entries stay; at the limit the list is unchanged; afterwards the length is at most `MAX_IMAGES` |
| `Bot.UploadsFillToLimit` | bot.py:175-200 | a series of uploads keeps the first `MAX_IMAGES - len` of them in arrival order and refuses the rest |
| `Bot.StyleSource` | bot.py:128 | `original_text or post_text`: the original text when it is non-empty, otherwise the post text |
| `Bot.UploadKeepsOk` | bot.py:175-200 | an upload keeps a stored session valid: its original text, prefixed entries and the limit |
| `Bot.Deliver` | bot.py:240-270 | the sends are made in plan order until one raises; all went through iff the transport accepted as many as the plan holds |
| `Bot.PostBot.constructor` | bot.py:31-37 | a fresh process has no sessions and no states |
| `Bot.PostBot.GeneratePost` | bot.py:76-100 | an empty message does nothing; otherwise the prompt is the text plus the date note, and only a non-empty generated post replaces the session wholesale with empty media; an empty post or an exception changes nothing; the state is untouched |
| `Bot.PostBot.HandleStyle` | bot.py:119-134 | without a session nothing happens; otherwise the model is asked for the style after `style_` on the style source plus date note, which for a stored session is always its original text (stored originals are never empty), and only `post_text` changes |
| `Bot.PostBot.HandleEdit` | bot.py:137-140 | sets `waiting_for_edit`, nothing else changes |
| `Bot.PostBot.HandleEditText` | bot.py:143-154 | clears the state; with a session the post becomes the message text verbatim and nothing else changes; without one the store is unchanged |
| `Bot.PostBot.HandleAddMedia` | bot.py:157-163 | sets `waiting_for_media`, nothing else changes |
| `Bot.PostBot.HandleMediaUpload` | bot.py:166-204 | without a session it clears the state only; a non-media message changes nothing; otherwise only the session's media changes, as `AfterUpload` says, and the reply carries the new count and whether the limit warning was given; the limit invariant is kept |
| `Bot.PostBot.HandleMediaAnytime` | bot.py:103-111 | a media message is an upload only in `waiting_for_media`; in any other state nothing changes |
| `Bot.PostBot.HandleMediaDone` | bot.py:207-216 | clears the state, changes no session, and shows the post and its media count (or the placeholder and 0) |
| `Bot.PostBot.HandlePublish` | bot.py:219-276 | a missing session or empty post, or an unset channel, sends nothing and changes nothing; otherwise a plan always exists for a stored session (`photos_videos[0]` cannot raise), its sends run in order and the session is removed only when all of them and the final confirmation succeed; on any failure the session is intact; states never change |
| `Bot.PostBot.HandleCancel` | bot.py:287-291 | removes the session, if any, and clears the state |
| `Bot.CancelTwice` | bot.py:287-291 | cancelling twice ends where cancelling once does |
| `Bot.EditThenText` | bot.py:137-154 | edit followed by a text sets the post to exactly that text, keeps original text and media, and leaves no state |
| `Bot.StoredPlan` | bot.py:240-270 | publishing a stored session always has a plan, and it delivers every attached entry exactly once |
| `Bot.PublishRetry` | bot.py:240-276 | after an interrupted publish the draft is intact and a second, successful attempt publishes the whole plan and removes the draft |
| `TimeParser.Candidates` | time_parser.py:28-35 | every candidate comes from a pair whose snippet is not a duration, and every such pair's datetime is a candidate |
| `TimeParser.CollectCandidates` | time_parser.py:28-35 | the loop collects exactly the non-duration datetimes, in search order |
| `TimeParser.FirstOfSort` | time_parser.py:39-40 | the element a stable sort by `(d < now, abs(d - now))` puts first: nothing sorts before it and every earlier candidate sorts strictly after it |
| `TimeParser.NearestOfSort` | time_parser.py:39-40 | that element is the nearest candidate at or after `now` when one exists, otherwise the latest candidate |
| `TimeParser.ParseEventDatetime` | time_parser.py:9-43 | `None` iff the search raised or every snippet is a duration; otherwise the first of the sort, taken from a non-duration snippet, at or after `now` and earliest such when any candidate is, else the latest past candidate |
| `TimeParser.MonthName` | time_parser.py:47-52 | `months[month - 1]` is a non-empty word without spaces |
| `TimeParser.TzAbbr` | time_parser.py:51 | the zone name when `tzname()` is non-empty, otherwise exactly `МСК` |
| `TimeParser.FormatDtRuRoundTrip` | time_parser.py:46-52 | the layout `"{day} {month} {year}, {HH:MM} {tz}"` is unambiguous: day, month (via its name), year, zero-padded hour and minute, and zone read back exactly |
| `Text.DecimalRoundTrip` | time_parser.py:52 | `str(n)` of a non-negative integer reads back as `n` |
| `Text.Pad2` | time_parser.py:52 | `%H` and `%M` are two digits whose value is the field |

## Left out

- Transport and UI: bot and dispatcher construction, keyboards, `/start` and `/help`, the regenerate and back-to-menu buttons (they only redraw a message), the texts of answers and alerts, `main` and signal handling.
- Which handler receives a message: aiogram's dispatch order is not modelled; each handler is a method the caller invokes (only `handle_media_anytime`'s own state test is modelled).
- The language-model client: its results are the `Generation` parameter; style-name lookup and `.strip()` happen inside it.
- The date search, `ZoneInfo`, `datetime.now()` and the naive-to-aware conversion: the search outcome and `now` are parameters, datetimes carry an integer instant and their wall-clock fields, and the consistency between the two is the calendar library's. `generate_post` and `handle_style` take the found date as a parameter.
- The `is_duration` regular expression: it is a function parameter of `TimeParser.ParseEventDatetime`.
- `total_seconds()` is a float; instants are exact integers here.
- Channel-id parsing with `int()`: the channel setting is only tested for being set; the chat id sent to is not part of a send.
- Interleaving at `await`: each handler runs as one atomic step, and a session is a value in the store rather than a shared dict, so a handler that updates a dict that another handler removed meanwhile is not modelled.
- Bot.PostBot.HandleEditText: a message without text (a sticker or a document) reaching `handle_edit_text` stores Python's `None` as `post_text`; the model's text is a string, so it stores the empty text. Publishing treats both alike (the post is reported missing), but `handle_media_done` then shows the word `None` where `Bot.PostBot.HandleMediaDone` returns the empty text.
- Reading `MAX_IMAGES` and `TELEGRAM_CHANNEL_ID` from the environment: they are constructor arguments (an unset channel is the empty text).
- Bot.PostBot.HandlePublish: which send failed is modelled only by how many sends the transport accepted first, and an exception's message is not modelled.
