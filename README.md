# ML course website: verified model of its logic

This project models, in Dafny, the deterministic logic inside a Next.js course website for a
machine-learning class. The site offers lessons with videos, an AI teaching assistant, homework,
and administration pages. The model covers:

- **Retrieval and chat.** The lexical retrieval over the built-in knowledge chunks: scope filter,
  substring and keyword scoring, stable descending sort in place, positive scores only, top `k`.
  The numbered context block. The `POST /api/chat` decision procedure: validation, forwarding to
  an external RAG backend and mapping its statuses, the API-key precedence, the time hint, and
  the empty-answer fallback. The `POST /api/conversation/new` proxy.
- **The chat panel.** The `[MM:SS]` timestamp tag inserted and read back, the keyword responder,
  and the message list, which a `ChatPanel` class updates in place.
- **Administration.** The homework and lesson admin routes: the admin check, `buildLinks`
  canonicalisation, required fields, count-based ids, deadline normalisation, 404 on an unknown
  id. The JSON list store with append and first-match update. The three admin dialogs: form ⇄
  payload conversions, and the loading and error state their submit handler updates.
- **Formatters and parsers.** Date and deadline labels in the homework list, lesson list and news
  block. The lesson list's link icons. The YouTube-id extraction and the three-way source choice
  of the video player.
- **Flags, sign-in and lookups.** The consent switch and the login-notice flag over browser
  storage. The sign-in callbacks: credentials check, redirect guard, and role propagation into
  the session. The related-courses table.

Backend calls, the file system and JSON parsing are parameters. A backend reply is an outcome
value: a status with a body, or a throw. A stored data file is one of `Missing`, `Blank`,
`Unparseable`, `NotArray` or `ArrayOf(items)`.
Classes stand for the objects and components whose fields the code updates in place:
`ChatPanel`, `Store`, the three dialogs, `Token`, `SessionObject`, `Storage`, `SettingsPage` and
`LoginNoticeModal`. Each of their methods is proved against a function of the old state.

JavaScript semantics are modelled where the code relies on them, in module `JsText`:

- `trim`, whitespace, `includes`, `split` and `join`;
- `replace` of a first occurrence, `slice` and `padStart`;
- `Number` of a string, which is `NaN` for text that is not a number;
- `String` of a number, of `NaN` and of `undefined`;
- truthiness and `x || undefined`;
- `JSON.stringify` of `NaN`, which is `null`.

## Model

| member | source | states |
|---|---|---|
| RagContent.Words | src/data/ragContent.ts:136 | the words of a string are non-empty, and a blank string has none |
| RagContent.QueryTerms | src/data/ragContent.ts:135-137 | there is always at least one search term |
| RagContent.QueryTermsOfBlank | src/data/ragContent.ts:135-137 | a blank or empty query gives exactly the one term `""` |
| RagContent.QueryTermsOfNonBlank | src/data/ragContent.ts:135-137 | any other query gives only non-empty terms, so never `[""]` |
| RagContent.FilterScope | src/data/ragContent.ts:139-141 | a chunk is kept iff it is in the table and in scope: same course, and no lesson asked for, the same lesson, or a course-wide chunk |
| RagContent.InScope | src/data/ragContent.ts:139-141 | definition: same course, and no lesson asked for, the same lesson, or a course-wide chunk; stated by `FilterScope` |
| RagContent.KeywordHits | src/data/ragContent.ts:148-150 | at most one hit per keyword |
| RagContent.Haystack | src/data/ragContent.ts:144 | definition: title, content and keywords, space-separated and lowercased; stated by `ScoreOfEmptyTerm` and `RetrieveBlankQuery` |
| RagContent.TermScore | src/data/ragContent.ts:146-151 | definition: 1 for a haystack hit plus the keyword hits; stated by `ScoreChunk` and `ScoreOfEmptyTerm` |
| RagContent.KeywordHitsOfEmpty | src/data/ragContent.ts:148-150 | every keyword matches the empty term |
| RagContent.ScoreOfEmptyTerm | src/data/ragContent.ts:144-151 | the empty term scores a chunk 1 plus its number of keywords |
| RagContent.Score | src/data/ragContent.ts:144-151 | definition: the sum over the terms of each term's hits; stated by `ScoreChunk` and `ScoreOfEmptyTerm` |
| RagContent.ScoreChunk | src/data/ragContent.ts:144-152 | the nested scoring loop computes the score: per term, 1 for a hit in title, content or keywords, plus 1 per keyword containing the term or contained in it |
| RagContent.ScoreAll | src/data/ragContent.ts:143-153 | each in-scope chunk is paired with its score, in order |
| RagContent.Insert | src/data/ragContent.ts:155 | one insertion step adds exactly one element |
| RagContent.InsertPermutes | src/data/ragContent.ts:155 | an insertion step adds exactly the inserted element, as a multiset |
| RagContent.InsertSorted | src/data/ragContent.ts:155 | an insertion step keeps a descending sequence descending |
| RagContent.Ranked | src/data/ragContent.ts:155 | the ranking has the input's length |
| RagContent.RankedPermutes | src/data/ragContent.ts:155 | the ranking is a permutation of the scored chunks |
| RagContent.RankedSorted | src/data/ragContent.ts:155 | the ranking is in non-increasing score order |
| RagContent.BucketInsert | src/data/ragContent.ts:155 | an insertion step never reorders entries of equal score |
| RagContent.RankedIsStable | src/data/ragContent.ts:155 | for every score, the entries with that score keep their table order (the sort is stable) |
| RagContent.InsertLast | src/data/ragContent.ts:155 | the in-place inner loop moves `a[i]` left past every strictly smaller score, giving one insertion step |
| RagContent.SortStep | src/data/ragContent.ts:155 | one outer round extends the ranked prefix by one element |
| RagContent.SortByScore | src/data/ragContent.ts:155 | the in-place sort of the array leaves exactly the stable ranking of its old contents |
| RagContent.Positive | src/data/ragContent.ts:157 | keeps exactly the entries with a positive score |
| RagContent.SliceTo | src/data/ragContent.ts:158 | `slice(0, k)` is a prefix of length `min(k, n)`, counting from the end when `k` is negative |
| RagContent.Chunks | src/data/ragContent.ts:159 | the chunks of the entries, position by position |
| RagContent.ScoreEach | src/data/ragContent.ts:143-153 | a fresh array holds each in-scope chunk with its score |
| RagContent.RetrieveIn | src/data/ragContent.ts:129-160 | the steps run in order (normalise, filter, score, sort in place, filter, slice, map) give the retrieval function |
| RagContent.Retrieve | src/data/ragContent.ts:129-160 | `retrieveChunks` over the built-in chunk table equals the retrieval function |
| RagContent.RetrieveFrom | src/data/ragContent.ts:129-160 | definition: the chunks of the top `k` positive entries of the ranking; stated by `RetrieveShape`, `RetrieveIsTopK`, `RetrieveBlankQuery` and `RetrieveIn` |
| RagContent.PositiveOfSorted | src/data/ragContent.ts:155-157 | in a descending ranking the positive-score entries form a prefix |
| RagContent.InRanked | src/data/ragContent.ts:155 | ranking neither adds nor drops an entry |
| RagContent.InScoreAll | src/data/ragContent.ts:143-153 | each scored entry pairs a chunk of the input with that chunk's own score |
| RagContent.SortedPrefix | src/data/ragContent.ts:155-158 | a prefix of a descending sequence is descending |
| RagContent.RetrieveScoredIsPrefix | src/data/ragContent.ts:155-158 | the result is a prefix of the ranking and of its positive part |
| RagContent.CutIsPrefix | src/data/ragContent.ts:157-158 | the positive part of a descending ranking cut at `k` is a prefix of the ranking |
| RagContent.RetrieveScoredEntry | src/data/ragContent.ts:139-158 | every returned entry has a table chunk, in scope, with its positive score |
| RagContent.RetrieveShape | src/data/ragContent.ts:139-159 | at most `k` chunks, each from the table and in scope, scores positive and non-increasing |
| RagContent.TopOfRanking | src/data/ragContent.ts:155-158 | a positive entry is kept, or `k` entries at least as good were kept |
| RagContent.RetrieveIsTopK | src/data/ragContent.ts:139-159 | a chunk in scope with a positive score is returned, unless `k` chunks scoring at least as much were returned |
| RagContent.RetrieveBlankQuery | src/data/ragContent.ts:135-159 | a blank query scores every in-scope chunk 1 + its number of keywords, so it returns `min(k, in scope)` chunks, not none |
| ChatRoute.ConfiguredBackend | src/app/api/chat/route.ts:7-61 | a backend is used iff the variable is set and non-empty once one trailing slash is stripped, and it is then the variable without that slash |
| ChatRoute.QueryShadowsMessage | src/app/api/chat/route.ts:41 | a present `query`, even `""`, shadows `message`; the text is trimmed |
| ChatRoute.QueryText | src/app/api/chat/route.ts:41 | definition: `(query ?? message ?? "").trim()`; stated by `QueryShadowsMessage` and `EmptyQueryRejected` |
| ChatRoute.ContextEntries | src/app/api/chat/route.ts:33-34 | entry `i` is `【i+1】title\ncontent` of chunk `i` |
| ChatRoute.BuildRagContext | src/app/api/chat/route.ts:31-36 | definition; stated by `BuildRagContextSentinel`, `BuildRagContextAppend` and `BuildRagContextSingle` |
| ChatRoute.BuildRagContextSentinel | src/app/api/chat/route.ts:31-36 | the no-content sentinel comes back iff there are no chunks |
| ChatRoute.BuildRagContextAppend | src/app/api/chat/route.ts:33-35 | one more chunk adds `\n\n` and its entry, numbered next |
| ChatRoute.BuildRagContextSingle | src/app/api/chat/route.ts:33-35 | one chunk gives `【1】title\ncontent`, which holds its title and content |
| ChatRoute.PayloadVideoContext | src/app/api/chat/route.ts:68-78 | the body's video context when either of its fields is set, else `{video_name, timestamp}` from the legacy `video_name` and `videoTimestamp` when either is set, else none |
| ChatRoute.NormaliseImage | src/app/api/chat/route.ts:81-84 | the forwarded image never contains a comma, and a trimmed value without a comma is forwarded as it is |
| ChatRoute.ImageSegment | src/app/api/chat/route.ts:81-84 | when the trimmed image is `prefix,data` or `prefix,data,…` with no comma in `prefix` or `data`, exactly `data` is forwarded |
| ChatRoute.RagPayloadOf | src/app/api/chat/route.ts:63-87 | definition: the payload for the backend; stated by `RagPayloadShape` |
| ChatRoute.RagPayloadShape | src/app/api/chat/route.ts:63-87 | the payload carries the query and conversation id; the video context is the body's own when either of its fields is set, else `{video_name, timestamp}` from the legacy fields when either is set, else none; an image goes iff both image and type are truthy, and then with that type |
| ChatRoute.NormaliseImageDropsPrefix | src/app/api/chat/route.ts:81-84 | a data-URI prefix up to the comma is removed |
| ChatRoute.TimeHint | src/app/api/chat/route.ts:151-153 | the hint is non-empty iff the timestamp is truthy, and then contains it |
| ChatRoute.VideoTimestamp | src/app/api/chat/route.ts:147 | definition: `video_context?.timestamp ?? videoTimestamp`; stated by `PromptHoldsContext` |
| ChatRoute.SystemPrompt | src/app/api/chat/route.ts:155-161 | the prompt contains the context and the time hint |
| ChatRoute.AnswerOrApology | src/app/api/chat/route.ts:199-201 | the answer is the trimmed content, or the apology when it is missing or blank; never blank |
| ChatRoute.EmptyQueryRejected | src/app/api/chat/route.ts:41-58 | an empty question is answered 400 before any outbound call, and only an empty question is |
| ChatRoute.BackendBypassesModel | src/app/api/chat/route.ts:61-131 | with a backend the handler forwards the payload and the model's behaviour cannot change the reply |
| ChatRoute.RagStatusMapping | src/app/api/chat/route.ts:103-114 | a status of 500 or more becomes 502, any other error status is kept; the error is the backend's or the default, details the status; a 2xx relays the answer or "(No response)" |
| ChatRoute.RagUnreachable | src/app/api/chat/route.ts:115-130 | an unreachable backend is 503 with `無法連線至 RAG 後端` and a hint: for a refused connection the start-up advice naming the backend url, otherwise the raw failure message |
| ChatRoute.UnreachableHint | src/app/api/chat/route.ts:124-126 | definition: the start-up advice for a refused connection, else the failure message; stated by `RagUnreachable` |
| ChatRoute.AfterRag | src/app/api/chat/route.ts:89-130 | definition: the reply relayed from the backend; stated by `RagStatusMapping` and `RagUnreachable` |
| ChatRoute.ServerErrorPaths | src/app/api/chat/route.ts:240-246 | a body that is not JSON and a model call that throws both answer 500 with `伺服器錯誤` and the failure text as details |
| ChatRoute.NoKeyRefused | src/app/api/chat/route.ts:136-144 | no backend and no key: 503 with the fixed hint, and no model is asked |
| ChatRoute.KeyPrecedence | src/app/api/chat/route.ts:136-165 | a Hugging Face key wins over an OpenAI key; OpenAI is asked only without one |
| ChatRoute.PromptHoldsContext | src/app/api/chat/route.ts:147-161 | the local prompt holds the context of at most five retrieved chunks and the timestamp when one is given |
| ChatRoute.LocalPrompt | src/app/api/chat/route.ts:147-161 | definition: the prompt over the top five chunks in scope and the time hint; stated by `PromptHoldsContext` |
| ChatRoute.AskModel | src/app/api/chat/route.ts:133-207 | definition: the Hugging Face call when its key is set, else the OpenAI call; stated by `KeyPrecedence` |
| ChatRoute.ModelAnswerNeverBlank | src/app/api/chat/route.ts:196-203 | a 2xx from the model always gives a non-blank answer |
| ChatRoute.ModelErrorTruncated | src/app/api/chat/route.ts:187-194 | a model error is 502 with the unavailable message, and its details are the first 300 (Hugging Face) or 200 (OpenAI) characters of the error text, or all of a shorter one |
| ChatRoute.AfterLlm | src/app/api/chat/route.ts:187-235 | definition: the reply made from the model's outcome; stated by `ModelAnswerNeverBlank`, `ModelErrorTruncated` and `ServerErrorPaths` |
| ChatRoute.Dispatch | src/app/api/chat/route.ts:38-248 | definition: the reply decided before any call, or the one outbound call to make; stated by `EmptyQueryRejected`, `BackendBypassesModel`, `NoKeyRefused` and `KeyPrecedence` |
| ChatRoute.HandleWith | src/app/api/chat/route.ts:38-248 | definition: `POST` over a chunk table, with the outbound call's outcome as a parameter; stated by `ServerErrorPaths`, `RagStatusMapping`, `RagUnreachable`, `ModelAnswerNeverBlank` and `ModelErrorTruncated` |
| ChatRoute.Handle | src/app/api/chat/route.ts:38-248 | definition: `HandleWith` over the built-in chunk table; stated by the rows of `HandleWith` |
| ConversationNew.ForwardOf | src/app/api/conversation/new/route.ts:12-28 | a call goes out iff a backend is configured, the body parsed and the id is truthy; it carries exactly that id |
| ConversationNew.AlwaysOk | src/app/api/conversation/new/route.ts:16-39 | the reply is always `{status: "ok"}`, whatever the backend did |
| ConversationNew.NoForwardWithoutTarget | src/app/api/conversation/new/route.ts:16-22 | without a backend or without an id nothing is forwarded |
| ConversationNew.NewConversation | src/app/api/conversation/new/route.ts:9-39 | definition; stated by `AlwaysOk` and `NoForwardWithoutTarget` |
| ChatPanelModel.MinutesWidth | src/components/ChatPanel.tsx:44-48 | minutes print with two digits below 100 minutes and with three or more from there; seconds always two |
| ChatPanelModel.FormatTime | src/components/ChatPanel.tsx:44-48 | below 100 minutes the time is `MM:SS` (five characters) and longer from there |
| ChatPanelModel.FormatTimeRoundTrip | src/components/ChatPanel.tsx:44-48 | below 100 minutes `MM:SS` reads back as the same number of seconds |
| ChatPanelModel.ParseTime | src/components/ChatPanel.tsx:44-48 | definition: the seconds an `MM:SS` text stands for, the inverse `formatTime` is proved against; stated by `FormatTimeRoundTrip` |
| ChatPanelModel.FindTag | src/components/ChatPanel.tsx:75-76 | the first position of a `[dd:dd]` tag, and none before it |
| ChatPanelModel.TagTime | src/components/ChatPanel.tsx:75 | definition: the capture of the first tag; stated by `NoTagUnchanged`, `LeadingTag` and `InsertedTagRoundTrip` |
| ChatPanelModel.WithoutTag | src/components/ChatPanel.tsx:76 | definition: the text with the first tag and the whitespace after it removed; stated by `NoTagUnchanged`, `LeadingTag` and `InsertedTagRoundTrip` |
| ChatPanelModel.NoTagUnchanged | src/components/ChatPanel.tsx:75-76 | without a tag there is no timestamp and the text is unchanged |
| ChatPanelModel.LeadingTag | src/components/ChatPanel.tsx:75-76 | a leading tag gives its time, and the text without it and the following whitespace |
| ChatPanelModel.InsertedTagRoundTrip | src/components/ChatPanel.tsx:50-76 | the tag `insertTimestamp` adds is read back as exactly `formatTime(t)` and removed again |
| ChatPanelModel.TopicOf | src/components/ChatPanel.tsx:56-69 | the topic is the first of gradient, neural, overfitting, loss whose words occur, else general |
| ChatPanelModel.ReplyFor | src/components/ChatPanel.tsx:57-69 | no reply is empty |
| ChatPanelModel.MockResponse | src/components/ChatPanel.tsx:55-70 | the responder never returns an empty reply |
| ChatPanelModel.MockResponseIgnoresCase | src/components/ChatPanel.tsx:56 | the reply does not depend on letter case |
| ChatPanelModel.GradientWins | src/components/ChatPanel.tsx:57-59 | a message mentioning "Gradient" gets the gradient reply, whatever else it says |
| ChatPanelModel.ChatPanel.constructor | src/components/ChatPanel.tsx:23-31 | the history starts as the one welcome message, with an empty input |
| ChatPanelModel.ChatPanel.InsertTimestamp | src/components/ChatPanel.tsx:50-53 | `[MM:SS] ` is prepended to the input; the messages are unchanged |
| ChatPanelModel.ChatPanel.HandleSend | src/components/ChatPanel.tsx:72-88 | blank input changes nothing; otherwise exactly one user message with the raw input and its tag time is appended, the input is cleared, and the reply is due for the text without the tag |
| ChatPanelModel.ChatPanel.DeliverReply | src/components/ChatPanel.tsx:90-97 | exactly one assistant message with the responder's reply is appended |
| ChatPanelModel.SendAtVideoTime | src/components/ChatPanel.tsx:50-97 | stamping the time, sending and receiving the reply records the formatted time on the user message |
| AdminHomework.AdminSignInPasses | src/app/api/admin/homework/route.ts:7-9 | the session produced by the `admin`/`admin` sign-in passes `isAdmin` |
| AdminHomework.IsAdmin | src/app/api/admin/homework/route.ts:7-9 | definition: the session's user has role `"admin"`; stated by `AdminSignInPasses`, `PostHomework` and `PutHomework` |
| AdminHomework.SlotItem | src/app/api/admin/homework/route.ts:20-22 | a slot gives an item iff its url is non-blank; url and icon are trimmed; an icon is attached iff non-blank |
| AdminHomework.IconOf | src/app/api/admin/homework/route.ts:20-22 | an icon is kept iff non-blank, trimmed |
| AdminHomework.SlotItems | src/app/api/admin/homework/route.ts:19-22 | at most three items |
| AdminHomework.Canonical | src/app/api/admin/homework/route.ts:23-25 | no items is absent; one icon-less item is its bare url; anything else the item list itself |
| AdminHomework.BuildLinks | src/app/api/admin/homework/route.ts:11-26 | the pushing loop builds the canonical form of the filled slots |
| AdminHomework.BuildLinksAbsent | src/app/api/admin/homework/route.ts:19-23 | the links are absent iff all three urls are blank |
| AdminHomework.BuildLinksKeepsOrder | src/app/api/admin/homework/route.ts:19-25 | the filled slots keep their order |
| AdminHomework.HomeworkOf | src/app/api/admin/homework/route.ts:53-81 | the stored homework takes the given id and deadline, the body's course, topic, week and date, the canonical video, slides, code and platform links, no separate icon fields, and `ta` exactly when it is truthy |
| AdminHomework.CountCourse | src/app/api/admin/homework/route.ts:50 | the count of a course's homework is at most the list length |
| AdminHomework.NextHomeworkId | src/app/api/admin/homework/route.ts:50-52 | definition: `hw-<course>-<count + 1>`; stated by `CountedIdsDiffer`, `ConsecutivePostsDiffer` and `CountedIdsCanRepeat` |
| AdminHomework.NewHomework | src/app/api/admin/homework/route.ts:50-81 | definition: the next id with the fields and the deadline as sent; stated by `PostHomework` |
| AdminHomework.EditedHomework | src/app/api/admin/homework/route.ts:116-143 | definition: the sent id with the fields and the normalised deadline; stated by `PutHomework` and `PutKeepsId` |
| AdminHomework.NormaliseDeadline | src/app/api/admin/homework/route.ts:122 | the normalised deadline has at most 16 characters; its value is stated by `NormaliseDeadlineValue` and `NormaliseDeadlineWithoutT` |
| AdminHomework.NormaliseDeadlineValue | src/app/api/admin/homework/route.ts:122 | `pTq` with no `T` in `p` becomes the first 16 characters of `p q` |
| AdminHomework.NormaliseDeadlineWithoutT | src/app/api/admin/homework/route.ts:122 | a deadline without `T` is only cut to its first 16 characters |
| AdminHomework.NormaliseDeadlineKeeps | src/app/api/admin/homework/route.ts:122 | a `YYYY-MM-DD HH:MM` deadline is left as it is |
| AdminHomework.PostHomework | src/app/api/admin/homework/route.ts:28-88 | 403 unless admin; 500 on a bad body; 400 on a missing field (week 0 accepted); else the homework with id `hw-<course>-<count+1>` is appended once |
| AdminHomework.WithBuiltLinks | src/app/api/admin/homework/route.ts:61-81 | each link kind is set to its canonical form and `ta` only when truthy |
| AdminHomework.PutHomework | src/app/api/admin/homework/route.ts:90-154 | 403 unless admin; 400 without a non-blank id or a required field; the update with a normalised deadline is applied, and 404 when no stored homework has the id |
| AdminHomework.CountCourseAppend | src/app/api/admin/homework/route.ts:50-51 | appending a homework of the course raises its count by one |
| AdminHomework.CountedIdsDiffer | src/app/api/admin/homework/route.ts:52 | different counts give different ids |
| AdminHomework.ConsecutivePostsDiffer | src/app/api/admin/homework/route.ts:50-82 | the next id after a post differs from the posted homework's id |
| AdminHomework.CountedIdsCanRepeat | src/app/api/admin/homework/route.ts:50-145 | once an edit moves a homework to another course, the next id can equal a stored one |
| AdminHomework.PutKeepsId | src/app/api/admin/homework/route.ts:116-145 | an edit replaces only the first match and keeps its id |
| AdminHomework.ClearedLinksKept | src/app/api/admin/homework/route.ts:124-128 | clearing every video slot in an edit leaves the stored video links in place |
| AdminLessons.LessonOf | src/app/api/admin/lessons/route.ts:22-33 | the lesson keeps id, course, title, week and date; a numeric video count is kept, and a missing or `NaN` one becomes 0; an array of material links is kept, anything else becomes `[]`; each link is kept iff it is truthy; there is no video link |
| AdminLessons.PostLesson | src/app/api/admin/lessons/route.ts:11-40 | 403 unless admin; 500 on a bad body; 400 on a missing field; else exactly one lesson is appended |
| AdminLessons.WeekZeroAccepted | src/app/api/admin/lessons/route.ts:19 | week 0 passes the check and a missing week fails it |
| AdminLessons.LessonHasRequired | src/app/api/admin/lessons/route.ts:19-21 | definition: id, course, title and date truthy and week not null; stated by `WeekZeroAccepted` and `PostLesson` |
| DataStore.ReadJsonArray | src/lib/data.ts:59-69 | an array file gives its items; a missing, blank, unparseable or non-array file gives `[]` |
| DataStore.WithExtrasReadsArray | src/lib/data.ts:20-44 | the list is the built-in one followed by the persisted extras; it starts with the built-in list |
| DataStore.WithExtras | src/lib/data.ts:20-44 | definition: the built-in list, followed by the file's array when it has one; stated by `WithExtrasReadsArray` |
| DataStore.Override | src/lib/data.ts:91 | a present update field wins over the stored one |
| DataStore.Merge | src/lib/data.ts:91 | the merged entry keeps the stored id |
| DataStore.MergeKeepsAbsent | src/lib/data.ts:91 | fields absent from the update keep their stored values |
| DataStore.MergeSelf | src/lib/data.ts:91 | merging an entry with itself changes nothing |
| DataStore.FindIndex | src/lib/data.ts:89 | the index has the id, and no index has it when none is found |
| DataStore.FindIndexIsFirst | src/lib/data.ts:89 | the index found is the first with the id |
| DataStore.UpdatedOnlyFirst | src/lib/data.ts:89-91 | the update replaces only the first match and leaves every other entry as it was |
| DataStore.Updated | src/lib/data.ts:86-91 | definition: the list with its first entry of the id merged; stated by `UpdatedOnlyFirst` |
| DataStore.Store.GetLessons | src/lib/data.ts:20-31 | the built-in lessons followed by the file's array |
| DataStore.Store.GetHomework | src/lib/data.ts:33-44 | the built-in homework followed by the persisted homework |
| DataStore.Store.GetPersistedHomework | src/lib/data.ts:47-57 | only the file's array |
| DataStore.PersistedExcludesBuiltin | src/lib/data.ts:33-57 | the full list is the built-in homework followed by exactly the persisted homework |
| DataStore.Store.AppendLesson | src/lib/data.ts:71-76 | the file becomes its old array plus the lesson; the lesson list grows by exactly that lesson at the end |
| DataStore.Store.AppendHomework | src/lib/data.ts:78-83 | the file becomes its old array plus the homework; the full list grows by exactly it at the end |
| DataStore.Store.UpdateHomework | src/lib/data.ts:86-95 | found iff an entry has the id; otherwise nothing is written; else the file holds the updated list |
| EditHomeworkModalModel.ToLinkArray | src/components/EditHomeworkModal.tsx:22-26 | absent is `[]`, a bare url one item, a list itself |
| EditHomeworkModalModel.ToLinkArrayUndoesCanonical | src/components/EditHomeworkModal.tsx:22-26 | `toLinkArray` undoes the server's canonical form |
| EditHomeworkModalModel.SlotsOf | src/components/EditHomeworkModal.tsx:41-46 | video and slides carry no icons into the form |
| EditHomeworkModalModel.HomeworkToForm | src/components/EditHomeworkModal.tsx:28-48 | `ta` defaults to `""` and the week is its text |
| EditHomeworkModalModel.FormDeadline | src/components/EditHomeworkModal.tsx:33 | definition: the `datetime-local` value of a stored deadline; stated by `DeadlineRoundTrip` and `DeadlineDefaultsToEndOfDay` |
| EditHomeworkModalModel.BodySlots | src/components/EditHomeworkModal.tsx:86-91 | video and slides send no icon slots |
| EditHomeworkModalModel.PayloadShape | src/components/EditHomeworkModal.tsx:78-92 | the body carries the id, the week read as a number, the deadline with its first `T` made a space and cut to 16, and empty fields as absent |
| EditHomeworkModalModel.PayloadOf | src/components/EditHomeworkModal.tsx:78-92 | definition: the `PUT` body built from the form; stated by `PayloadShape`, `DeadlineRoundTrip`, `WeekRoundTrip` and `ItemsRoundTrip` |
| EditHomeworkModalModel.DeadlineRoundTrip | src/components/EditHomeworkModal.tsx:33-84 | a `YYYY-MM-DD HH:MM` deadline survives form and submit unchanged |
| EditHomeworkModalModel.DeadlineDefaultsToEndOfDay | src/components/EditHomeworkModal.tsx:33-84 | a deadline without a space comes back as the date at 23:59 |
| EditHomeworkModalModel.WeekRoundTrip | src/components/EditHomeworkModal.tsx:37-82 | a non-negative whole week survives; a `NaN` week makes the request fail validation |
| EditHomeworkModalModel.SlotRoundTrip | src/components/EditHomeworkModal.tsx:41-91 | a clean stored item in the first three comes back from its slot unchanged |
| EditHomeworkModalModel.ItemsRoundTrip | src/components/EditHomeworkModal.tsx:41-91 | up to three clean items survive form and submit |
| EditHomeworkModalModel.IconLinksRoundTrip | src/components/EditHomeworkModal.tsx:43-91 | clean code and platform links survive an unchanged edit |
| EditHomeworkModalModel.UrlOnlyLinksLoseIcons | src/components/EditHomeworkModal.tsx:41-87 | video and slides links come back without their icons |
| EditHomeworkModalModel.Sent | src/components/EditHomeworkModal.tsx:74-92 | nothing is sent without a homework; otherwise the body carries its id |
| EditHomeworkModalModel.EditHomeworkModal.constructor | src/components/EditHomeworkModal.tsx:56-70 | opening on a homework fills the form from it and clears the error |
| EditHomeworkModalModel.EditHomeworkModal.Submit | src/components/EditHomeworkModal.tsx:72-107 | sends the body and leaves the dialog state the edit transition gives, with "更新失敗" as fallback |
| AdminDialog.FailureMessage | src/components/EditHomeworkModal.tsx:99-103 | the server's truthy error, else the fallback; a thrown error's own message |
| AdminDialog.AfterEdit | src/components/EditHomeworkModal.tsx:74-106 | definition: the state after an edit submit; stated by `EditSuccessCloses`, `EditFailureKeepsOpen` and `EditWithoutEntry` |
| AdminDialog.EditSuccessCloses | src/components/EditHomeworkModal.tsx:98-105 | success closes the dialog, clears the error and ends loading |
| AdminDialog.EditFailureKeepsOpen | src/components/EditHomeworkModal.tsx:99-105 | failure keeps the form and the dialog open and shows a non-empty error for a server answer |
| AdminDialog.EditWithoutEntry | src/components/EditHomeworkModal.tsx:74 | without an entry submit changes nothing |
| AddLectureModalModel.TrimmedNonEmpty | src/components/AddLectureModal.tsx:46-47 | every kept piece is non-empty and trimmed |
| AddLectureModalModel.TrimmedNonEmptyKeepsNoneIn | src/components/AddLectureModal.tsx:44-47 | trimming and dropping empties adds no separator |
| AddLectureModalModel.TrimmedNonEmptyOfClean | src/components/AddLectureModal.tsx:46-47 | clean pieces pass through unchanged |
| AddLectureModalModel.SplitMaterialLinks | src/components/AddLectureModal.tsx:44-47 | every link is non-empty, trimmed and free of newlines and commas |
| AddLectureModalModel.MaterialLinksRoundTrip | src/components/EditLectureModal.tsx:21-60 | clean links joined by a newline or comma split back into the same list |
| AddLectureModalModel.MaterialLinksStable | src/components/EditLectureModal.tsx:21-60 | parsing the text the links are shown as gives the same links |
| AddLectureModalModel.NewLessonAccepted | src/components/AddLectureModal.tsx:51-62 | the route accepts the body iff id, course, title and date are filled and the week reads as a number |
| AddLectureModalModel.NewLessonStored | src/components/AddLectureModal.tsx:51-62 | the lesson stored for an accepted form |
| AddLectureModalModel.NewLessonPayload | src/components/AddLectureModal.tsx:44-62 | definition: the `POST` body built from the form; stated by `NewLessonAccepted`, `NewLessonStored` and `BlankWeekIsZero` |
| AddLectureModalModel.BlankWeekIsZero | src/components/AddLectureModal.tsx:55 | an empty week is sent as 0 |
| AddLectureModalModel.AddSuccessResets | src/components/AddLectureModal.tsx:66-68 | after success the form is exactly the initial form and the dialog is closed |
| AddLectureModalModel.AfterAdd | src/components/AddLectureModal.tsx:64-73 | definition: the state after an add submit; stated by `AddSuccessResets` and `AddFailureKeepsForm` |
| AddLectureModalModel.AddFailureKeepsForm | src/components/AddLectureModal.tsx:65-71 | failure keeps the form and shows the error or "新增失敗" |
| AddLectureModalModel.AddLectureModal.constructor | src/components/AddLectureModal.tsx:16-27 | the dialog starts with the initial form, video count `"0"` |
| AddLectureModalModel.AddLectureModal.Submit | src/components/AddLectureModal.tsx:39-74 | sends the payload of the form and leaves the state of the add transition |
| EditLectureModalModel.LessonToForm | src/components/EditLectureModal.tsx:14-27 | no material links give `""`; the video count is its text, `"0"` when missing |
| EditLectureModalModel.LessonWeekRoundTrip | src/components/EditLectureModal.tsx:18-68 | a non-negative whole week survives; a missing or `NaN` week is sent as `null` |
| EditLectureModalModel.VideoCountRoundTrip | src/components/EditLectureModal.tsx:20-70 | a non-negative count survives; a missing or `NaN` count is sent as 0 |
| EditLectureModalModel.MaterialLinksSurviveEdit | src/components/EditLectureModal.tsx:21-60 | clean links survive an unchanged edit; none give `[]` |
| EditLectureModalModel.LinkRoundTrip | src/components/EditLectureModal.tsx:22-75 | a link comes back as `link \|\| undefined` |
| EditLectureModalModel.LessonLinksRoundTrip | src/components/EditLectureModal.tsx:22-75 | the id and every non-empty link come back unchanged |
| EditLectureModalModel.ResubmittedHasRequired | src/components/EditLectureModal.tsx:64-76 | an unchanged complete lesson carries every required field |
| EditLectureModalModel.Sent | src/components/EditLectureModal.tsx:53-76 | nothing is sent without a lesson; otherwise the body carries its id |
| EditLectureModalModel.LessonPayload | src/components/EditLectureModal.tsx:53-76 | definition: the `PUT` body built from the form; stated by `LessonWeekRoundTrip`, `VideoCountRoundTrip`, `LessonLinksRoundTrip` and `ResubmittedHasRequired` |
| EditLectureModalModel.EditLectureModal.constructor | src/components/EditLectureModal.tsx:35-49 | opening on a lesson fills the form from it and clears the error |
| EditLectureModalModel.EditLectureModal.Submit | src/components/EditLectureModal.tsx:51-87 | sends the body and leaves the state of the edit transition, with "更新失敗" as fallback |
| DateFormat.FieldAt | src/components/HomeworkList.tsx:18 | a field exists iff there are enough pieces |
| DateFormat.MonthName | src/components/HomeworkList.tsx:19 | months 1 to 12 give their abbreviation, anything else `"undefined"` |
| DateFormat.SplitThree | src/components/HomeworkList.tsx:18 | three separator-free pieces joined by `-` split back into them |
| DateFormat.LabelOfFields | src/components/LessonList.tsx:13-16 | a month read as 1 to 12 and a day read as `d` give the month's abbreviation, a space and `String(d)` |
| DateFormat.FormatDateOf | src/components/LessonList.tsx:13-16 | `Y-M-D` is labelled `MONTH_ABBR[M-1] + " " + D` with D unpadded |
| DateFormat.FormatDate | src/components/LessonList.tsx:13-16 | definition: `formatDate`, the label of the split pieces; stated by `FormatDateOf`, `YearIgnored` and `LeadingZeroDropped` |
| DateFormat.YearIgnored | src/components/LessonList.tsx:14 | the year never changes the label |
| DateFormat.LeadingZeroDropped | src/components/LessonList.tsx:14-15 | a zero-padded day is labelled like the unpadded one |
| HomeworkList.DatePartFields | src/components/HomeworkList.tsx:25-28 | month and day are printed as their values padded to two places |
| HomeworkList.FormatDeadlineOf | src/components/HomeworkList.tsx:23-30 | a deadline with a time shows padded month, `/`, padded day, a space and the time |
| HomeworkList.FormatDeadline | src/components/HomeworkList.tsx:22-30 | definition: `formatDeadline`; stated by `FormatDeadlineOf`, `FormatDeadlineWithoutTime` and `StoredDeadlineShown` |
| HomeworkList.FormatDeadlineWithoutTime | src/components/HomeworkList.tsx:24-26 | a deadline without a time shows `23:59` |
| HomeworkList.PaddedFieldIsTwoDigits | src/components/HomeworkList.tsx:27-28 | a value below 100 prints as exactly two digits reading back as the value |
| HomeworkList.TwoDigitFieldKept | src/components/HomeworkList.tsx:27-28 | a two-digit field prints as written |
| HomeworkList.StoredDeadlineShown | src/components/HomeworkList.tsx:22-30 | `YYYY-MM-DD HH:MM` shows as `MM/DD HH:MM` |
| LessonList.IconFor | src/components/LessonList.tsx:39-49 | an icon is drawn iff the link is truthy, and links to it |
| LessonList.LessonIcons | src/components/LessonList.tsx:39-71 | definition: the YouTube, PPT and PDF icons in that order; stated by `LessonIconsShown`, `LessonIconsHaveTargets` and `NoLinksNoIcons` |
| LessonList.LessonIconsShown | src/components/LessonList.tsx:39-71 | each of the YouTube, PPT and PDF icons is shown iff its link is truthy; at most three |
| LessonList.LessonIconsHaveTargets | src/components/LessonList.tsx:39-71 | no icon links to an empty url |
| LessonList.NoLinksNoIcons | src/components/LessonList.tsx:39-71 | a lesson without links shows no icon |
| News.FormatNewsDate | src/components/News.tsx:12-15 | the label is the lists' date label |
| News.NewsYearOf | src/components/News.tsx:13-14 | the year is the first field's number |
| News.Render | src/components/News.tsx:41-52 | an item is a link iff its `href` is non-empty, and links there |
| VideoPlayer.MatchIndex | src/components/VideoPlayer.tsx:17-23 | the leftmost position where the pattern matches, and no match before it |
| VideoPlayer.CaptureAt | src/components/VideoPlayer.tsx:17-24 | a capture is non-empty and holds no stop character |
| VideoPlayer.Capture | src/components/VideoPlayer.tsx:17-24 | the capture of the first match is non-empty and stop-free |
| VideoPlayer.ExtractedId | src/components/VideoPlayer.tsx:16-25 | definition: the capture of the pattern the url's marker selects; stated by `WatchUrlGivesId` and `OnlyYoutubeUrlsGiveIds` |
| VideoPlayer.GetYoutubeVideoId | src/components/VideoPlayer.tsx:11-30 | a result is a valid id; a blank url gives none; a result exists iff the trimmed url's candidate, tried in the order watch, short link, embed, is valid |
| VideoPlayer.IsValidYoutubeVideoId | src/components/VideoPlayer.tsx:6-8 | definition: eleven characters from letters, digits, `_` and `-`; stated by `GetYoutubeVideoId` and `WatchUrlGivesId` |
| VideoPlayer.MatchIndexIsFirst | src/components/VideoPlayer.tsx:17 | a match with none before it is the one found |
| VideoPlayer.WatchParamCapture | src/components/VideoPlayer.tsx:17-18 | `[?&]v=` captures the parameter up to the next `&` |
| VideoPlayer.WatchUrlGivesId | src/components/VideoPlayer.tsx:11-26 | a watch url with a valid id gives that id, whatever parameters follow |
| VideoPlayer.SelectSource | src/components/VideoPlayer.tsx:70-73 | exactly one source is set: the id of the url, the url itself when it does not look like YouTube, or the sample video |
| VideoPlayer.VideoSrc | src/components/VideoPlayer.tsx:74 | the native player plays the direct url or the fallback |
| VideoPlayer.OnlyYoutubeUrlsGiveIds | src/components/VideoPlayer.tsx:16-71 | a url mentioning neither `youtube.com` nor `youtu.be` gives no id |
| VideoPlayer.LooksLikeYoutube | src/components/VideoPlayer.tsx:71 | definition: the url mentions `youtube.com` or `youtu.be`; stated by `OnlyYoutubeUrlsGiveIds` and `SelectSource` |
| VideoPlayer.FallbackWhenNoPlayableSource | src/components/VideoPlayer.tsx:70-73 | the sample plays iff there is no source, or a YouTube-looking one without a valid id |
| VideoPlayer.PlainUrlPlayedDirectly | src/components/VideoPlayer.tsx:72-74 | any other non-empty url is played as it is |
| VideoPlayer.AlwaysSomethingToPlay | src/components/VideoPlayer.tsx:70-74 | the player always embeds a video or has a non-empty url |
| BrowserStorage.Storage.Lookup | src/app/settings/page.tsx:11 | a value is read iff storage works and holds the key |
| BrowserStorage.Storage.GetItem | src/app/settings/page.tsx:11 | throws iff storage is unavailable; otherwise the stored value or none |
| BrowserStorage.Storage.SetItem | src/app/settings/page.tsx:22 | throws and changes nothing when unavailable; otherwise stores the value under the key |
| SettingsConsent.ConsentRoundTrip | src/app/settings/page.tsx:12-22 | the text saved for a value reads back as that value |
| SettingsConsent.ConsentOf | src/app/settings/page.tsx:11-13 | definition: consent unless the stored text is exactly `"false"`; stated by `ConsentRoundTrip` and `LoadConsent` |
| SettingsConsent.LoadedConsent | src/app/settings/page.tsx:8-17 | definition: the consent read from working storage; stated by `LoadConsent` and `SettingsPage.Mount` |
| SettingsConsent.LoadConsent | src/app/settings/page.tsx:8-17 | consent is withheld iff storage works and holds exactly `"false"`; unset, other text or an error give consent |
| SettingsConsent.SaveConsent | src/app/settings/page.tsx:19-26 | `"true"`/`"false"` is stored when storage works, nothing otherwise; a later load gives the value back |
| SettingsConsent.SettingsPage.constructor | src/app/settings/page.tsx:29-30 | the switch starts on and not mounted |
| SettingsConsent.SettingsPage.Mount | src/app/settings/page.tsx:32-35 | mounting loads the stored consent |
| SettingsConsent.SettingsPage.Toggle | src/app/settings/page.tsx:37-41 | the switch flips even if the write fails; when storage works the new value is stored and loads back |
| LoginNotice.LoginNoticeModal.constructor | src/components/LoginNoticeModal.tsx:10-11 | the notice starts closed and unticked |
| LoginNotice.LoginNoticeModal.CheckAndShow | src/components/LoginNoticeModal.tsx:13-21 | nothing changes unless signed in; then it opens iff the stored flag is not `"true"` or storage throws |
| LoginNotice.LoginNoticeModal.SetDontShowAgain | src/components/LoginNoticeModal.tsx:70-73 | the checkbox sets the flag only |
| LoginNotice.LoginNoticeModal.Close | src/components/LoginNoticeModal.tsx:27-36 | always closes; writes `"true"` only when ticked and storage works; unticked leaves storage as it was |
| LoginNotice.NeverShownSignedOut | src/components/LoginNoticeModal.tsx:14-38 | from any state of the notice and any storage contents, a user who is not signed in never sees it |
| LoginNotice.DismissThenCheck | src/components/LoginNoticeModal.tsx:16-30 | after a ticked close, a later check keeps the notice closed |
| LoginNotice.ShownWhenStorageFails | src/components/LoginNoticeModal.tsx:18-20 | a signed-in user with failing storage sees the notice |
| Auth.Authorize | src/lib/auth.ts:21-27 | the administrator, role `admin`, iff username and password are both `admin`; nobody otherwise |
| Auth.Origin | src/lib/auth.ts:45-46 | an origin is a prefix of its url |
| Auth.OriginOfExtension | src/lib/auth.ts:45-46 | a path, query or fragment after an origin keeps the origin |
| Auth.Redirect | src/lib/auth.ts:42-52 | the result is the base url or the target |
| Auth.RedirectTarget | src/lib/auth.ts:43 | definition: a site path is joined to the base url without its trailing slash, anything else is kept; stated by `RedirectFollowsPath` |
| Auth.RedirectStaysOnSite | src/lib/auth.ts:44-51 | the result is the base url or a url on the base url's origin |
| Auth.RedirectRefusesForeign | src/lib/auth.ts:44-51 | a foreign or unparsable target gives the base url |
| Auth.RedirectFollowsPath | src/lib/auth.ts:43-48 | a site path is followed on the origin, with or without a trailing slash on the base url |
| Auth.Token.Jwt | src/lib/auth.ts:53-56 | the role is copied only from a user that has one; otherwise the token is unchanged |
| Auth.SessionObject.Populate | src/lib/auth.ts:57-63 | a present user gets the token's role and `picture ?? image`; no user stays none |
| Auth.CredentialsSignIn | src/lib/auth.ts:21-63 | a session exists iff the credentials are `admin`/`admin`, and its user carries role `admin` |
| RelatedCourses.GetRelatedCourses | src/mock/relatedCourses.ts:7-79 | an id other than `ml-2026` and `dl-2026` gives `[]`; no course lists itself |
| RelatedCourses.MachineLearningRelated | src/mock/relatedCourses.ts:9-46 | `ml-2026` lists dl, cv, nlp, rl in that order |
| RelatedCourses.DeepLearningRelated | src/mock/relatedCourses.ts:47-75 | `dl-2026` lists ml, cv, nlp in that order |
| RelatedCourses.MachineAndDeepLearningListEachOther | src/mock/relatedCourses.ts:9-75 | machine learning and deep learning list each other |
| JsText.Trim | src/app/api/chat/route.ts:41 | `trim` leaves no whitespace at either end and is a slice of its input |
| JsText.TrimIdempotent | src/data/ragContent.ts:135 | trimming twice is trimming once |
| JsText.Lower | src/data/ragContent.ts:135 | ASCII lowercasing keeps the length |
| JsText.Split | src/components/HomeworkList.tsx:18 | `split` gives at least one piece and no piece holds a separator |
| JsText.SplitJoin | src/components/EditLectureModal.tsx:21-58 | joining separator-free pieces and splitting gives the pieces back |
| JsText.JoinSplit | src/components/EditLectureModal.tsx:21-58 | splitting and joining with the one separator gives the text back |
| JsText.ReplaceFirst | src/app/api/admin/homework/route.ts:122 | `replace` of a string changes only its first occurrence |
| JsText.NatToString | src/components/HomeworkList.tsx:27-28 | a number prints as digits without leading zeros that read back as it |
| JsText.NumberOf | src/components/HomeworkList.tsx:18 | `Number` of digits is their value, of blank text 0, of other text `NaN` |
| JsText.PadStart2 | src/components/HomeworkList.tsx:27-28 | `padStart(2, "0")` reaches two characters and keeps longer text |
| JsText.OrUndefined | src/components/EditHomeworkModal.tsx:85-91 | `x \|\| undefined` keeps exactly the truthy strings |
| JsText.JsonNumber | src/components/AddLectureModal.tsx:55 | `JSON.stringify` sends `NaN` as `null` and any other number as itself |
| JsText.StripTrailingSlash | src/lib/auth.ts:43 | only one trailing `/` is removed |

## Left out

- Network calls are outcome parameters: the RAG backend, Hugging Face, OpenAI, `/api/courses`, and the five-minute timeout. The `ECONNREFUSED` test is a boolean.
- The file system and `JSON.parse` are left out. A stored file is `Missing`, `Blank`, `Unparseable`, `NotArray` or `ArrayOf(items)`, and `ensureDataDir` is not modelled.
- React rendering, effects, refs and timers are left out. The reply delay in the chat panel is a separate `DeliverReply` call. The YouTube iframe API and its polling are not modelled.
- The dialogs' `open` prop and their course-list fetch are not modelled. Opening a dialog is its constructor, and `onSuccess`/`onClose` are the `closed` flag.
- The browser's `required` form validation is not modelled: every form string can be empty.
- Video time is whole seconds (`nat`), not a floating-point number.
- `Date.now()` ids, `toLocaleTimeString` stamps, console logging and the debug copy of the request body are left out.
- `getServerSession` and the provider wiring are left out. The session is an input, and the Google and GitHub providers are not modelled.
- JsText.NumberOf: only digit strings are modelled. Signs, decimals, exponents and hex read as `NaN`, where JavaScript would give a number.
- JsText.Lower: lowercases ASCII only. The responder's Chinese keywords have no case, so they are unaffected.
- Auth.Origin: models `new URL(u).origin` only for `scheme://authority…` urls. Anything else counts as a parse failure. Default ports, case and IDNA are not normalised. Userinfo is kept: `https://u@site.example/x` has origin `https://u@site.example` in the model, but `https://site.example` in JavaScript, so `Redirect` sends such a callback to the base url where the source would follow it. A backslash is not read as `/`, as WHATWG parsing does for http(s) urls, so `https://site.example\x` has a different origin in the model. Each gap only makes `Redirect` refuse more, so `RedirectStaysOnSite` still holds for the source.
- VideoPlayer.GetYoutubeVideoId: the `try/catch` has nothing to catch in the model, so it is not modelled.
- AdminHomework.PutHomework: `updateHomework` takes a `Partial<Homework>`. Here it takes the homework the route builds, where every link kind is a canonical link or absent.
- EditLectureModalModel.EditLectureModal.Submit: the dialog sends `PUT` to `/api/admin/lessons`. That route only exports `POST`, so the framework answers 405 with an empty body. `await res.json()` then throws a parse error before `res.ok` is tested, and the dialog shows that error's message, not `更新失敗`. In the model this is the `Threw` outcome with the parse error's message. The model takes the outcome as a parameter and does not tie it to that route.
- Strings are sequences of Unicode scalar values, while JavaScript's `length`, `slice` and `padStart` count UTF-16 code units. A character outside the Basic Multilingual Plane, such as an emoji, is one element here and two units there. So `Take(text, 300)` in the model error details can keep more code units than `err.slice(0, 300)`, and the 16-character deadline cut and the 2-character padding differ in the same way on such text.
- RelatedCourses.GetRelatedCourses: keys inherited from `Object.prototype`, such as `"constructor"`, would make `courseMap[courseId]` return a function. The model is a plain map.
- Course data other than the chunk table and the related-courses table is left out: the mock courses, lessons and homework lists. The store takes the built-in lists as values.
