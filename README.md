# chatthread in Dafny

This project models the core of **chatthread**, an Android chat-thread view library.
It covers the following parts:

- **The message-type registry** (`MessageTypes`). Each message type gets a view-type id from a counter that only grows.
- **Classification** (`Message.parse`). The registered types are sorted stably by parse priority. The first type whose `isParsable` accepts the text has its `parseMessage` result returned. Otherwise a single text message carries the text.
- **The built-in variants.** These are text, image (an image URL) and link preview (any URL). The model covers their parsers, layout defaults, setters and `loaded` flags, their `bindView` visibility, and the decision logic of the preview's page enrichment.
- **Authors** (`Author`). An author's avatar is fetched at most once at a time.
- **Message parameters** (`MessageParameters`). These are the radius ordering, avatar shapes and the font fallback chain.
- **Date arithmetic and formatting** (`MessageDateFormatter`, `DefaultMessageDateFormatter`).
- **The list adapter** (`MessageThreadListAdapter`). This is the list or delegate it wraps and its mutations, `getItem` stamping, view types, and what `getView` shows for a row: container corners, avatar, date label, date header and content. It also covers the tap toggle that pins a row's date.

How each part is represented:

- **Objects stay objects.** Messages, authors, the registry, the parameters, the date formatter and the adapter are classes whose methods update their fields in place.
- **Message variants.** A message's variant payload is a `Body` value held in its `Message` object. The setters of each variant module update it in place.
- **Pure decisions are functions.** Parsing decisions, layout values and visibility rules are functions with lemmas about them.
- **Loops are methods.** Where the source loops (the parse loop, the preview's image and meta scans, `addToTop`, the array form of `addToBottom`), there is a method with loop invariants, proved against the function that specifies it.
- **Background work is two events.** Each thread is modelled as the call that starts it and a completion method that delivers its outcome. The completion method performs the main-thread callback and the adapter notification.
- **Notifications are counted.** `notifyDataSetChanged` is a `Notifier` object that counts calls.
- **Outside inputs are parameters.** The following come in as parameters:
  - the wall clock (`now`);
  - the URL matcher and `Uri.getLastPathSegment` (an `Env` value);
  - what a fetch delivered (a `Fetched` value, or the `Sources` of a preview page);
  - device pixel sizes.

Behaviour worth noting:

- **Priority ties.** Ties in priority are broken by the iteration order of the registry's `HashMap` key set; registration order plays no part. Java's stable sort keeps that order. `Parsing.Parse` therefore takes the key order as an input, constrained only to enumerate the registered types. `Sorting.StableSortIsSortBy` shows that any stable sort gives the same order as the model's insertion sort. `Parsing.TieWithImageFollowsKeyOrder` shows that the winner of a tie depends on the key order.
- **The image parser's signature.** `ImageMessage.parseMessage` has no date parameter, unlike the base class, so as written it does not override it. It is modelled as the parser the parse loop dispatches to for images, and it leaves the date unset on its messages.

## Model

| member | source | states |
|---|---|---|
| Registry.MessageTypes.constructor | chatthread/src/main/java/tk/nathanf/chatthread/components/messages/MessageTypes.java:19-29 | the built-ins get ids text 0, image 1, preview 2; the counter ends at 3; the registry invariant holds |
| Registry.MessageTypes.GetNextViewType | chatthread/src/main/java/tk/nathanf/chatthread/components/messages/MessageTypes.java:74-78 | returns the counter and advances it by exactly one, nothing else changes |
| Registry.MessageTypes.Register | chatthread/src/main/java/tk/nathanf/chatthread/components/messages/MessageTypes.java:45-47 | the type maps to the old counter, every other type keeps its id, the count grows only for a new type, the invariant (ids distinct and below the counter) is kept |
| Registry.MessageTypes.GetViewType | chatthread/src/main/java/tk/nathanf/chatthread/components/messages/MessageTypes.java:56-58 | null exactly for a type never registered, else its latest id |
| Registry.MessageTypes.GetTypeCount | chatthread/src/main/java/tk/nathanf/chatthread/components/messages/MessageTypes.java:65-67 | the number of registered types |
| Registry.MessageTypes.CountBounds | chatthread/src/main/java/tk/nathanf/chatthread/components/messages/MessageTypes.java:24-29 | under the invariant, 3 <= type count <= counter |
| Registry.MessageTypes.IdsBelowCount | chatthread/src/main/java/tk/nathanf/chatthread/components/messages/MessageTypes.java:45-47 | while no type was registered twice, every id is below the type count |
| MessageModel.Message.constructor | chatthread/src/main/java/tk/nathanf/chatthread/components/Message.java:84-88 | a new message holds its author, date and payload, at position 0 with no adapter |
| MessageModel.Message.SetSentOn | chatthread/src/main/java/tk/nathanf/chatthread/components/Message.java:105-107 | stores the date, nothing else changes |
| MessageModel.Message.SentOn | chatthread/src/main/java/tk/nathanf/chatthread/components/Message.java:115-117 | the stored date when set, the current time otherwise |
| MessageModel.Message.SetPosition | chatthread/src/main/java/tk/nathanf/chatthread/components/Message.java:124-126 | stores the position, nothing else changes |
| MessageModel.Message.SetAdapter | chatthread/src/main/java/tk/nathanf/chatthread/components/Message.java:143-145 | stores the adapter, nothing else changes |
| MessageModel.EdgePadding | chatthread/src/main/java/tk/nathanf/chatthread/components/Message.java:305-312 | the same padding on each of the four edges |
| TextMessages.SetMessage | chatthread/src/main/java/tk/nathanf/chatthread/components/messages/types/TextMessage.java:43-54 | `getMessage` afterwards answers exactly the string set; the other fields are unchanged |
| TextMessages.GetMessage | chatthread/src/main/java/tk/nathanf/chatthread/components/messages/types/TextMessage.java:52-54 | the text the message holds, null when none was given; `SetMessage` reads back through it |
| JavaStrings.Split | chatthread/src/main/java/tk/nathanf/chatthread/components/messages/types/ImageMessage.java:262 | `split(" ")`: no piece holds a space; a text without a space is its own single piece |
| JavaStrings.JoinPieces | chatthread/src/main/java/tk/nathanf/chatthread/components/messages/types/ImageMessage.java:262 | the pieces a space split cuts (before dropping trailing empties) join back into the text |
| JavaStrings.DropTrailingEmpty | chatthread/src/main/java/tk/nathanf/chatthread/components/messages/types/ImageMessage.java:262 | keeps a prefix, ends in a non-empty piece, and drops only empty pieces |
| JavaStrings.FindFirst | chatthread/src/main/java/tk/nathanf/chatthread/components/messages/types/ImageMessage.java:263-272 | the index of the first token satisfying the test, or none when no token does |
| ImageMessages.IsParsable | chatthread/src/main/java/tk/nathanf/chatthread/components/messages/types/ImageMessage.java:261-275 | true iff the first URL token ends in png, jpg, bmp or jpeg; later URL tokens are never looked at |
| ImageMessages.ParseMessage | chatthread/src/main/java/tk/nathanf/chatthread/components/messages/types/ImageMessage.java:289-323 | empty iff no token is an image URL; else, for the first one, the image alone when it is the whole text, otherwise the whole text then the image; none is dated |
| ImageMessages.ParsableImageYieldsMessages | chatthread/src/main/java/tk/nathanf/chatthread/components/messages/types/ImageMessage.java:261-323 | when `isParsable` holds, `parseMessage` gives one or two messages, for the very token `isParsable` decided on |
| ImageMessages.Radius | chatthread/src/main/java/tk/nathanf/chatthread/components/messages/types/ImageMessage.java:236-239 | the first radius on all four corners |
| ImageMessages.SetName | chatthread/src/main/java/tk/nathanf/chatthread/components/messages/types/ImageMessage.java:75-77 | stores the name, nothing else changes |
| ImageMessages.SetImageBitmap | chatthread/src/main/java/tk/nathanf/chatthread/components/messages/types/ImageMessage.java:84-87 | stores the bitmap and marks the image loaded, so `bindView` shows it |
| ImageMessages.SetImageUrl | chatthread/src/main/java/tk/nathanf/chatthread/components/messages/types/ImageMessage.java:96-120 | starts one more fetch and changes nothing else yet |
| ImageMessages.AfterImageLoad | chatthread/src/main/java/tk/nathanf/chatthread/components/messages/types/ImageMessage.java:100-116 | a finished fetch stores the decoded bitmap (null on failure) and marks the image loaded only when an adapter was attached |
| ImageMessages.CompleteImageLoad | chatthread/src/main/java/tk/nathanf/chatthread/components/messages/types/ImageMessage.java:100-116 | the message's payload becomes `AfterImageLoad` of the old one; an attached adapter is notified once |
| ImageMessages.Shown | chatthread/src/main/java/tk/nathanf/chatthread/components/messages/types/ImageMessage.java:170-181 | the picture shows iff loaded, and it is the stored bitmap |
| ImageMessages.ParsedImageShowsPictureOnceLoaded | chatthread/src/main/java/tk/nathanf/chatthread/components/messages/types/ImageMessage.java:96-181 | a parsed image shows the spinner, and after an attached fetch delivers a bitmap it shows that bitmap |
| ImageMessages.DetachedImageStaysLoading | chatthread/src/main/java/tk/nathanf/chatthread/components/messages/types/ImageMessage.java:108-116 | fetches that finish without an adapter never end the spinner, whatever they deliver |
| PreviewMessages.IsParsable | chatthread/src/main/java/tk/nathanf/chatthread/components/messages/types/PreviewMessage.java:460-469 | true iff some token is a URL, with no suffix test |
| PreviewMessages.ParseMessage | chatthread/src/main/java/tk/nathanf/chatthread/components/messages/types/PreviewMessage.java:483-499 | empty iff not parsable; else one preview of the first URL token: title and url the token, content the placeholder, text the whole input, dated as given, fetching |
| PreviewMessages.LastSegment | chatthread/src/main/java/tk/nathanf/chatthread/components/messages/types/PreviewMessage.java:203-204 | the suffix of the path after its last '/', the whole path when it has none |
| PreviewMessages.ImageStep | chatthread/src/main/java/tk/nathanf/chatthread/components/messages/types/PreviewMessage.java:234-256 | one step of the image scan never swaps in a smaller picture |
| PreviewMessages.PickLargestImage | chatthread/src/main/java/tk/nathanf/chatthread/components/messages/types/PreviewMessage.java:232-260 | the loop's result equals the specification fold `ScanImages` |
| PreviewMessages.ScanFailureSticks | chatthread/src/main/java/tk/nathanf/chatthread/components/messages/types/PreviewMessage.java:238-250 | once a fetch in the scan has failed (the exception aborts the load), the whole scan has failed |
| PreviewMessages.LargestImageIsFirstMaximal | chatthread/src/main/java/tk/nathanf/chatthread/components/messages/types/PreviewMessage.java:232-260 | over any page: a source that cannot be opened aborts the scan; a null pick means every source decoded to null; a kept picture is that of a decoding image, the first of largest area among those that decode, with every undecodable source before it; when every image decodes a picture is kept |
| PreviewMessages.Thumbnail | chatthread/src/main/java/tk/nathanf/chatthread/components/messages/types/PreviewMessage.java:224-230 | the video thumbnail counts only when it was fetched without an I/O failure, and the picture is the bitmap that fetch decoded |
| PreviewMessages.Described | chatthread/src/main/java/tk/nathanf/chatthread/components/messages/types/PreviewMessage.java:271-279 | the body text, unless some meta named description (any case) exists, in which case the last one's content |
| PreviewMessages.ScanDescription | chatthread/src/main/java/tk/nathanf/chatthread/components/messages/types/PreviewMessage.java:271-279 | the loop's result equals `Described` |
| PreviewMessages.Enrich | chatthread/src/main/java/tk/nathanf/chatthread/components/messages/types/PreviewMessage.java:202-285 | no path or neither frame nor page fails the load; a video frame gives the frame, the path's last segment and the placeholder; a page gives its picture (`PagePicture`: the thumbnail for a YouTube URL, else the image scan), and the load fails exactly when that step throws, with its title (blank becomes the url) and its description (the url when the title is the url) |
| PreviewMessages.PageGivesLargestImage | chatthread/src/main/java/tk/nathanf/chatthread/components/messages/types/PreviewMessage.java:224-260 | for a page that is not a YouTube video, any image source that cannot be opened fails the load, and a picture the load sets is a decoded image of the page no other decoded image is larger than |
| PreviewMessages.ReadSources | chatthread/src/main/java/tk/nathanf/chatthread/components/messages/types/PreviewMessage.java:202-280 | the reading steps, run with the two loops, give exactly `Enrich` |
| PreviewMessages.AfterPreviewLoad | chatthread/src/main/java/tk/nathanf/chatthread/components/messages/types/PreviewMessage.java:283-287 | the preview is loaded whatever happened; image, title and content change only when the enrichment succeeded |
| PreviewMessages.LoadPreview | chatthread/src/main/java/tk/nathanf/chatthread/components/messages/types/PreviewMessage.java:198-299 | the payload becomes `AfterPreviewLoad` of the enrichment; an attached adapter is notified once |
| PreviewMessages.Shown | chatthread/src/main/java/tk/nathanf/chatthread/components/messages/types/PreviewMessage.java:352-408 | spinner iff not loaded; when loaded, headings hidden iff content and title both equal the url, the title clamped to two lines iff it equals the url |
| PreviewMessages.WordIsNotPlaceholder | chatthread/src/main/java/tk/nathanf/chatthread/components/messages/types/PreviewMessage.java:486-490 | a URL token never equals the placeholder text |
| PreviewMessages.ParsedPreviewShowsSpinner | chatthread/src/main/java/tk/nathanf/chatthread/components/messages/types/PreviewMessage.java:359-494 | a freshly parsed preview shows its spinner |
| PreviewMessages.FailedLoadShowsPlaceholder | chatthread/src/main/java/tk/nathanf/chatthread/components/messages/types/PreviewMessage.java:283-400 | after a failed load the preview shows the token as title with the placeholder below it |
| PreviewMessages.BlankPageTitleHidesHeadings | chatthread/src/main/java/tk/nathanf/chatthread/components/messages/types/PreviewMessage.java:263-391 | a page with a blank title ends with title and description hidden |
| PreviewMessages.VideoShowsFrameAndSegment | chatthread/src/main/java/tk/nathanf/chatthread/components/messages/types/PreviewMessage.java:203-222 | a video shows its frame, the path's last segment and the placeholder |
| Variants.Priority | chatthread/src/main/java/tk/nathanf/chatthread/components/Message.java:355-357 | every built-in type has a priority (only application types can fail to instantiate) |
| Variants.BuiltInPriorities | chatthread/src/main/java/tk/nathanf/chatthread/components/messages/types/PreviewMessage.java:447-449 | image (0) before preview (1) before text (`Integer.MAX_VALUE`) |
| Variants.Try | chatthread/src/main/java/tk/nathanf/chatthread/components/Message.java:282-287 | text never accepts (base `isParsable`); image and preview accept exactly when their `isParsable` holds, with their `parseMessage` result |
| Variants.BuiltInAcceptanceIsNonEmpty | chatthread/src/main/java/tk/nathanf/chatthread/components/Message.java:284-285 | a built-in type that accepts a text parses it into at least one message |
| Variants.Padding | chatthread/src/main/java/tk/nathanf/chatthread/components/Message.java:305-312 | four copies of the image padding for images (ImageMessage.java:196-199), the preview padding for previews (PreviewMessage.java:424-427), the text padding otherwise |
| Variants.Radius | chatthread/src/main/java/tk/nathanf/chatthread/components/Message.java:322-324 | the configured radii, except the first radius on every corner for images |
| Variants.MinSize | chatthread/src/main/java/tk/nathanf/chatthread/components/Message.java:333-346 | 0 for images, 50 otherwise |
| Sorting.SortByIsOrderedPermutation | chatthread/src/main/java/tk/nathanf/chatthread/components/Message.java:260-279 | the sorted types are in ascending priority and a permutation of the input |
| Sorting.SortByIsStable | chatthread/src/main/java/tk/nathanf/chatthread/components/Message.java:260-279 | types of equal priority keep their input order |
| Sorting.StableOrderIsUnique | chatthread/src/main/java/tk/nathanf/chatthread/components/Message.java:260-279 | two sorted sequences with the same elements per priority, in the same order, are equal |
| Sorting.StableSortIsSortBy | chatthread/src/main/java/tk/nathanf/chatthread/components/Message.java:260-279 | any stable sort of the key set (Java's merge sort included) gives the model's order |
| Sorting.DistinctKeysSortAlike | chatthread/src/main/java/tk/nathanf/chatthread/components/Message.java:258-279 | with distinct priorities the key-set order does not matter |
| Parsing.FirstAccepted | chatthread/src/main/java/tk/nathanf/chatthread/components/Message.java:281-288 | none iff no type accepts; else the result of the first accepting type, with no earlier type accepting |
| Parsing.Classify | chatthread/src/main/java/tk/nathanf/chatthread/components/Message.java:257-294 | an error iff the comparator throws; else the first accepted result verbatim (even empty), or one text message of the data dated as given |
| Parsing.Parse | chatthread/src/main/java/tk/nathanf/chatthread/components/Message.java:257-294 | fails iff `Classify` does; else fresh, distinct messages holding exactly `Classify`'s drafts, in order |
| Parsing.ParseNow | chatthread/src/main/java/tk/nathanf/chatthread/components/Message.java:209-211 | the four-argument parse dated now |
| Parsing.BuiltInSortOrder | chatthread/src/main/java/tk/nathanf/chatthread/components/Message.java:258-279 | the built-ins are tried image, preview, text, whatever the key order |
| Parsing.BuiltInClassification | chatthread/src/main/java/tk/nathanf/chatthread/components/Message.java:257-294 | with only built-ins, an image parse if parsable, else a preview parse if parsable, else the text fallback |
| Parsing.BuiltInParseNeverEmpty | chatthread/src/main/java/tk/nathanf/chatthread/components/Message.java:257-294 | with only built-ins, parse never fails and gives one or two messages |
| Parsing.TextWithoutUrlIsText | chatthread/src/main/java/tk/nathanf/chatthread/components/Message.java:290-293 | a text with no URL token becomes one text message with the data and date |
| Parsing.LoneImageUrlIsImage | chatthread/src/main/java/tk/nathanf/chatthread/components/messages/types/ImageMessage.java:311-317 | a lone image URL becomes one image message |
| Parsing.ImageUrlInTextSplits | chatthread/src/main/java/tk/nathanf/chatthread/components/messages/types/ImageMessage.java:302-310 | an image URL inside longer text becomes the text message then the image message |
| Parsing.FirstUrlWithoutImageSuffixIsPreview | chatthread/src/main/java/tk/nathanf/chatthread/components/messages/types/PreviewMessage.java:483-494 | when the first URL has no image suffix, the text becomes one preview of the first URL |
| Parsing.EqualPrioritiesFollowKeyOrder | chatthread/src/main/java/tk/nathanf/chatthread/components/Message.java:258-260 | types of equal priority are tried in key-set order |
| Parsing.TriedInPriorityOrder | chatthread/src/main/java/tk/nathanf/chatthread/components/Message.java:260-281 | types are tried in ascending priority, each once |
| Parsing.TieWithImageFollowsKeyOrder | chatthread/src/main/java/tk/nathanf/chatthread/components/Message.java:258-286 | an application type tied with image and earlier in key order wins, and its empty result is returned as is |
| Authors.AfterGet | chatthread/src/main/java/tk/nathanf/chatthread/components/Author.java:132-177 | a call starts one fetch exactly when there is no avatar, a URL and no fetch in flight; otherwise nothing changes |
| Authors.AfterComplete | chatthread/src/main/java/tk/nathanf/chatthread/components/Author.java:157-171 | a decoded stream replaces the avatar (null if undecodable), an I/O failure keeps it; the loading flag clears only when the call had an adapter |
| Authors.RunKeepsConsistent | chatthread/src/main/java/tk/nathanf/chatthread/components/Author.java:132-177 | over any sequence of calls and completions, at most one fetch is in flight |
| Authors.AvatarPersists | chatthread/src/main/java/tk/nathanf/chatthread/components/Author.java:133-137 | once an avatar is set, no call starts a fetch and the avatar stays |
| Authors.LoadWithoutAdapterNeverRetries | chatthread/src/main/java/tk/nathanf/chatthread/components/Author.java:146-170 | a fetch started without an adapter leaves the loading flag set forever, so no later call fetches again |
| Authors.UndecodableAvatarIsRetried | chatthread/src/main/java/tk/nathanf/chatthread/components/Author.java:159-170 | an undecodable stream with an adapter leaves no avatar, so the next call fetches again |
| Authors.Author.constructor | chatthread/src/main/java/tk/nathanf/chatthread/components/Author.java:51-54 | source and name fixed, no avatar and no URL |
| Authors.Author.WithAvatar | chatthread/src/main/java/tk/nathanf/chatthread/components/Author.java:64-68 | sets only the avatar besides source and name |
| Authors.Author.WithAvatarUrl | chatthread/src/main/java/tk/nathanf/chatthread/components/Author.java:76-80 | sets only the URL besides source and name |
| Authors.Author.GetAvatar | chatthread/src/main/java/tk/nathanf/chatthread/components/Author.java:132-177 | returns the avatar held before the call, and the state becomes `AfterGet` |
| Authors.Author.CompleteAvatarLoad | chatthread/src/main/java/tk/nathanf/chatthread/components/Author.java:156-173 | the state becomes `AfterComplete`; the adapter, if any, is notified once |
| Parameters.AvatarShapeOf | chatthread/src/main/java/tk/nathanf/chatthread/components/MessageParameters.java:57-67 | a shape exactly for 0, 1 and 2, the one with that value |
| Parameters.AvatarScale.Value | chatthread/src/main/java/tk/nathanf/chatthread/components/MessageParameters.java:25-38 | the avatar size in dp, 40, 50 or 60, growing with the scale |
| Parameters.AvatarShape.Value | chatthread/src/main/java/tk/nathanf/chatthread/components/MessageParameters.java:43-55 | a distinct code in 0..2 per shape: circle 0, square 1, round square 2 |
| Parameters.AvatarShapeRoundTrip | chatthread/src/main/java/tk/nathanf/chatthread/components/MessageParameters.java:43-67 | `valueOf(s.getValue()) == s` for every shape |
| Parameters.FirstSet | chatthread/src/main/java/tk/nathanf/chatthread/components/MessageParameters.java:379-395 | the first font set in the chain, `DEFAULT` when none is |
| Parameters.MessageParameters.constructor | chatthread/src/main/java/tk/nathanf/chatthread/components/MessageParameters.java:103-163 | each field holds its argument, the radii by name (the argument order is top-from, bottom-from, top-to, bottom-to) |
| Parameters.MessageParameters.MessageRadiusPx | chatthread/src/main/java/tk/nathanf/chatthread/components/MessageParameters.java:204-209 | four radii: top-from, top-to, bottom-to, bottom-from |
| Parameters.MessageParameters.MessageRadiusPxDoubled | chatthread/src/main/java/tk/nathanf/chatthread/components/MessageParameters.java:217-224 | each radius of `getMessageRadiusPx` twice, in the same order |
| Parameters.MessageParameters.SetMessageRadiusPx | chatthread/src/main/java/tk/nathanf/chatthread/components/MessageParameters.java:173-178 | `getMessageRadiusPx` afterwards returns the four arguments in order; no other field changes |
| Parameters.MessageParameters.MessageFont | chatthread/src/main/java/tk/nathanf/chatthread/components/MessageParameters.java:379-381 | the message font, else `DEFAULT` |
| Parameters.MessageParameters.DateFont | chatthread/src/main/java/tk/nathanf/chatthread/components/MessageParameters.java:386-388 | the date font, else the message font chain |
| Parameters.MessageParameters.DateHeaderFont | chatthread/src/main/java/tk/nathanf/chatthread/components/MessageParameters.java:393-395 | the header font, else the date font chain |
| Dates.FlagAllIsBoth | chatthread/src/main/java/tk/nathanf/chatthread/components/dates/MessageDateFormatter.java:18-35 | `FLAG_ALL` is `FLAG_MINUTES` or `FLAG_DAYS` |
| Dates.Quot | chatthread/src/main/java/tk/nathanf/chatthread/components/dates/MessageDateFormatter.java:74-76 | Java's division, truncating toward zero for either sign |
| Dates.MinutesBetween | chatthread/src/main/java/tk/nathanf/chatthread/components/dates/MessageDateFormatter.java:85-87 | the whole minutes in the distance of the two dates: non-negative and bracketing the distance |
| Dates.MinutesBetweenSymmetric | chatthread/src/main/java/tk/nathanf/chatthread/components/dates/MessageDateFormatter.java:85-87 | the argument order does not matter |
| Dates.MinutesAgo | chatthread/src/main/java/tk/nathanf/chatthread/components/dates/MessageDateFormatter.java:74-76 | `getMinutesBetween(now, date)` for a past date and its negation for a future one (truncation toward zero) |
| Dates.DaysAgo | chatthread/src/main/java/tk/nathanf/chatthread/components/dates/MessageDateFormatter.java:95-97 | the whole days elapsed, bracketing the elapsed time; never positive for a future date |
| Dates.IsToday | chatthread/src/main/java/tk/nathanf/chatthread/components/dates/MessageDateFormatter.java:64-66 | less than 24 hours ago (or in the future), not the calendar day |
| Dates.MessageDateFormatter.constructor | chatthread/src/main/java/tk/nathanf/chatthread/components/dates/MessageDateFormatter.java:53-56 | holds the given format and flags |
| Dates.MessageDateFormatter.SetFlags | chatthread/src/main/java/tk/nathanf/chatthread/components/dates/MessageDateFormatter.java:126-128 | the flags read back as set; the format is unchanged |
| Dates.MessageDateFormatter.SetDefaultFormat | chatthread/src/main/java/tk/nathanf/chatthread/components/dates/MessageDateFormatter.java:135-137 | the format reads back as set; the flags are unchanged |
| Dates.Format | chatthread/src/main/java/tk/nathanf/chatthread/components/dates/DefaultMessageDateFormatter.java:29-65 | with the minutes flag and under a day old: "Just now", "A minute ago", "n minutes ago", then "Today at" or the default format; otherwise "Yesterday at", the weekday format or the default format by the days flag and age |
| Dates.DecimalString | chatthread/src/main/java/tk/nathanf/chatthread/components/dates/DefaultMessageDateFormatter.java:50 | a non-empty string of decimal digits |
| Dates.DecimalRoundTrip | chatthread/src/main/java/tk/nathanf/chatthread/components/dates/DefaultMessageDateFormatter.java:50 | the digits of "n minutes ago" read back as n |
| Dates.DaysOnlyRecentReadsYesterday | chatthread/src/main/java/tk/nathanf/chatthread/components/dates/DefaultMessageDateFormatter.java:40-58 | with only the days flag, anything under two days old reads "Yesterday at" |
| Dates.NoFlagsUseDefaultFormat | chatthread/src/main/java/tk/nathanf/chatthread/components/dates/DefaultMessageDateFormatter.java:40-62 | with no flags, always the default format |
| AdapterRules.ContainerRadii | chatthread/src/main/java/tk/nathanf/chatthread/components/MessageThreadListAdapter.java:327-343 | eight corner values; an incoming bubble repeats each radius twice in order |
| AdapterRules.OutgoingMirrorsIncoming | chatthread/src/main/java/tk/nathanf/chatthread/components/MessageThreadListAdapter.java:327-343 | the outgoing corners are the incoming ones flipped left to right |
| AdapterRules.IncomingTextUsesDoubledRadii | chatthread/src/main/java/tk/nathanf/chatthread/components/MessageThreadListAdapter.java:336-341 | an incoming text bubble's corners are exactly `getMessageRadiusPxDoubled` |
| AdapterRules.ImageBubbleIsUniform | chatthread/src/main/java/tk/nathanf/chatthread/components/MessageThreadListAdapter.java:327-343 | an image bubble has the top-from radius on all eight values, on either side |
| AdapterRules.AvatarCorner | chatthread/src/main/java/tk/nathanf/chatthread/components/MessageThreadListAdapter.java:393-421 | round-square 10 px outgoing but 8 dp incoming, square 0, anything else half the avatar size |
| AdapterRules.DateLabelVisible | chatthread/src/main/java/tk/nathanf/chatthread/components/MessageThreadListAdapter.java:445-452 | shown iff pinned, or the last row and its `minutesAgo` above 1 |
| AdapterRules.RemoveFirst | chatthread/src/main/java/tk/nathanf/chatthread/components/MessageThreadListAdapter.java:484 | `remove(Integer)`: an absent value changes nothing, a present one loses exactly one occurrence |
| AdapterRules.Tap | chatthread/src/main/java/tk/nathanf/chatthread/components/MessageThreadListAdapter.java:480-491 | a tap on a shown date removes one pin of the position from the multiset of pins; a tap on a hidden one appends the position |
| AdapterRules.TapTwiceRestores | chatthread/src/main/java/tk/nathanf/chatthread/components/MessageThreadListAdapter.java:480-491 | two taps on a hidden date leave the pinned positions as they were |
| AdapterRules.TapTwiceOnAgedLastRowRemembersIt | chatthread/src/main/java/tk/nathanf/chatthread/components/MessageThreadListAdapter.java:445-491 | on an old last row, the first tap changes nothing pinned and the second pins the position |
| AdapterRules.HeaderVisible | chatthread/src/main/java/tk/nathanf/chatthread/components/MessageThreadListAdapter.java:456-474 | never when disabled; always above a row with no previous row; otherwise iff the gap to the previous row is at least the separation in milliseconds, either way |
| AdapterRules.HeaderMarksGaps | chatthread/src/main/java/tk/nathanf/chatthread/components/MessageThreadListAdapter.java:465-473 | a later row's header shows iff the gap is at least the separation in minutes, measured either way |
| AdapterRules.HeaderScenario | chatthread/src/main/java/tk/nathanf/chatthread/components/MessageThreadListAdapter.java:456-477 | rows at t, t+1 min and t+20 min with a 10-minute separation: headers on the first and third only |
| AdapterRules.ViewType | chatthread/src/main/java/tk/nathanf/chatthread/components/MessageThreadListAdapter.java:221-223 | for an id below the type count, incoming rows fall in the lower half of the view types and outgoing rows in the upper half |
| AdapterRules.ViewTypesFitWithoutReRegistration | chatthread/src/main/java/tk/nathanf/chatthread/components/MessageThreadListAdapter.java:221-233 | while the counter equals the type count, view types lie below `getViewTypeCount()` and differ per (type, side) |
| AdapterRules.ReRegistrationBreaksViewTypes | chatthread/src/main/java/tk/nathanf/chatthread/components/MessageThreadListAdapter.java:221-233 | after re-registering text, an outgoing text row's view type is out of range, and an incoming text row collides with an outgoing image row |
| AdapterRules.IntendedViewTypesFit | chatthread/src/main/java/tk/nathanf/chatthread/components/MessageThreadListAdapter.java:221-233 | view types offset by the id counter always fit in twice the counter and never collide |
| AdapterRules.TopInsertion | chatthread/src/main/java/tk/nathanf/chatthread/components/MessageThreadListAdapter.java:157-171 | as written: the list grows by the batch; ahead of a non-empty list the batch keeps its order (reversed on request); an empty list receives it in the opposite order |
| AdapterRules.TopInsertionDependsOnEmptiness | chatthread/src/main/java/tk/nathanf/chatthread/components/MessageThreadListAdapter.java:157-171 | the same batch lands reversed in an empty list but in order ahead of a non-empty one |
| AdapterRules.IntendedTopInsertionIsUniform | chatthread/src/main/java/tk/nathanf/chatthread/components/MessageThreadListAdapter.java:140-173 | the documented insertion puts ahead of any list exactly what an empty list receives, and agrees with the code whenever the list was not empty |
| AdapterRules.ContentOf | chatthread/src/main/java/tk/nathanf/chatthread/components/MessageThreadListAdapter.java:499 | `bindView` by type: text shows its message, image and preview their `Shown` views |
| Adapter.ViewTypeCount | chatthread/src/main/java/tk/nathanf/chatthread/components/MessageThreadListAdapter.java:232-234 | twice the type count, so half of it is the type count |
| Adapter.RegisteredViewTypesFit | chatthread/src/main/java/tk/nathanf/chatthread/components/MessageThreadListAdapter.java:209-234 | for the registry as it stands (no re-registration), every row's view type is in range and distinct per (type, side) |
| Adapter.ReRegisterText | chatthread/src/main/java/tk/nathanf/chatthread/components/messages/MessageTypes.java:45-47 | registering text twice more through `register` builds the registry of `AdapterRules.ReRegistrationBreaksViewTypes`, and an outgoing text row then gets a view type at or above `getViewTypeCount()` |
| Adapter.AvatarLayout | chatthread/src/main/java/tk/nathanf/chatthread/components/MessageThreadListAdapter.java:388-437 | the avatar shows iff that side's setting is on, with the author's current bitmap and an 8 dp margin, else 16 dp |
| Adapter.ShowAvatar | chatthread/src/main/java/tk/nathanf/chatthread/components/MessageThreadListAdapter.java:388-437 | the slot is `AvatarLayout`; a shown avatar moves the author to `AfterGet` (the second incoming call starts nothing) |
| Adapter.ListAdapter.constructor | chatthread/src/main/java/tk/nathanf/chatthread/components/MessageThreadListAdapter.java:61-63 | an empty growable list, nothing pinned, no owner |
| Adapter.ListAdapter.WithList | chatthread/src/main/java/tk/nathanf/chatthread/components/MessageThreadListAdapter.java:70-72 | wraps the given list, or nothing for null |
| Adapter.ListAdapter.WithDelegate | chatthread/src/main/java/tk/nathanf/chatthread/components/MessageThreadListAdapter.java:79-81 | wraps the given delegate, or nothing for null |
| Adapter.ListAdapter.SetOwner | chatthread/src/main/java/tk/nathanf/chatthread/components/MessageThreadListAdapter.java:197-199 | an owner is set; the list is unchanged |
| Adapter.ListAdapter.GetCount | chatthread/src/main/java/tk/nathanf/chatthread/components/MessageThreadListAdapter.java:242-250 | the list size, the delegate's count, or 0 when wrapping nothing |
| Adapter.ListAdapter.At | chatthread/src/main/java/tk/nathanf/chatthread/components/MessageThreadListAdapter.java:259-269 | a list read finds the element in range, null before it, and throws past the end of a growable list (null for a fixed-size one); a delegate's null is null |
| Adapter.ListAdapter.GetItem | chatthread/src/main/java/tk/nathanf/chatthread/components/MessageThreadListAdapter.java:259-276 | the read's message, stamped with this adapter and the position; its date and payload unchanged |
| Adapter.ListAdapter.AddToBottom | chatthread/src/main/java/tk/nathanf/chatthread/components/MessageThreadListAdapter.java:101-113 | fails without a list or on a fixed-size one, changing nothing; else appends and notifies, then scrolls or fails for want of an owner |
| Adapter.ListAdapter.AddAllToBottom | chatthread/src/main/java/tk/nathanf/chatthread/components/MessageThreadListAdapter.java:133-137 | appends every element in order with one notification each; stops after the first append when scrolling without an owner; an empty batch never fails |
| Adapter.ListAdapter.AddToTop | chatthread/src/main/java/tk/nathanf/chatthread/components/MessageThreadListAdapter.java:147-173 | fails without a list; an empty batch changes nothing; else the list becomes `TopInsertion` (fixed-size and unnotified when it was empty), or the call fails on a fixed-size list |
| Adapter.ListAdapter.Remove | chatthread/src/main/java/tk/nathanf/chatthread/components/MessageThreadListAdapter.java:181-190 | deletes exactly that index and notifies; fails without a list, on a fixed-size list, or out of range, changing nothing |
| Adapter.ListAdapter.GetItemViewType | chatthread/src/main/java/tk/nathanf/chatthread/components/MessageThreadListAdapter.java:209-224 | the id for an incoming row, the type count plus the id for an outgoing one; fails for an unregistered type or a missing message |
| Adapter.ListAdapter.FirstListRowHasHeader | chatthread/src/main/java/tk/nathanf/chatthread/components/MessageThreadListAdapter.java:262-463 | reading before the first row of a list gives null, so an enabled header shows above it |
| Adapter.ListAdapter.DateHeader | chatthread/src/main/java/tk/nathanf/chatthread/components/MessageThreadListAdapter.java:455-477 | the formatted date when the header is enabled and there is no previous row or the gap reaches the separation; the previous row is stamped |
| Adapter.ListAdapter.GetView | chatthread/src/main/java/tk/nathanf/chatthread/components/MessageThreadListAdapter.java:299-508 | the row's container (fresh views only), avatar, date label and visibility, header, elevation and content, as the rules above give; a read past the end fails first, then a missing owner, then a missing message |
| Adapter.ListAdapter.TapDate | chatthread/src/main/java/tk/nathanf/chatthread/components/MessageThreadListAdapter.java:480-491 | a shown date is hidden and one pin of its position dropped; a hidden one is shown and pinned |

## Left out

- **Views.** Android view work is not modelled: inflation, `createView`, view lookup, text colours, typefaces and sizes on views, Linkify, `requestLayout` and click intents (opening the browser or the image viewer). A row's appearance is the `Row` value `getView` returns.
- **Device measurements.** `Measure` (dp to pixel conversion) is not part of this model. The pixel sizes of 8 dp, 16 dp and the avatar scale are parameters of `getView`.
- **The owning thread.** `MessageThread` is not part of this model. Its parameters object is passed to `getView`, and its presence is a flag. Its scrolling is counted, not performed.
- **The image viewer.** `PreviewImage` is not part of this model.
- **Networking and decoding.** URL fetching, bitmap decoding, HTML parsing and video frame extraction are inputs, not modelled. A fetch result is a `Fetched` value; a page is a `Page` of title, body text, metas and images.
- **Threads.** Background threads and main-looper posts are sequential start and completion events.
- **`Message.getSentOn` with no date.** Every call reads the clock anew. The model uses one `now` per operation.
- **Application message types.** Their `isParsable`/`parseMessage` and priority are an abstract `CustomTypes` value. Their views and layout use the base-class defaults.
- **Lists supplied to the adapter.** A list handed to the adapter is taken to be an `ArrayList`: its `get(-1)` throws the `ArrayIndexOutOfBoundsException` that `getItem` catches, so a read before the start answers null (a `LinkedList` would throw an exception `getItem` does not catch). The fixed-size case arises only from `addToTop`. Sharing is not modelled: the list constructor keeps the caller's list, so later changes by either side show in the other. `addToTop(ms, false)` also reverses the caller's array `ms` in place, whether or not the list was empty, and the adapter keeps that array after an insertion into an empty list. `ms` is a value here, so the model shows neither effect.
- **Date formatter subclasses.** `MessageDateFormatter` is abstract, and the owner accepts any subclass. The model's `Dates.MessageDateFormatter` is always `DefaultMessageDateFormatter`: its `FormatDate` is the default decision tree. A subclass's own `format`, `getMinutesAgo` or `getMinutesBetween` is not modelled. The date, date-label and date-header clauses of `Adapter.ListAdapter.GetView` and `Adapter.ListAdapter.DateHeader` hold for the default formatter only.
- **Delegate reads.** A delegate answers from a finite map of positions to messages. It answers null elsewhere.
- **Logging.** Logging calls are dropped.
- **Preview setters and getters.** The trivial setters and getters of `PreviewMessage` (other than the load) are not separate members. The load sets the fields together.
- **Uncompilable snapshot.** As written, `MessageThread` passes fewer arguments than the `MessageParameters` constructor takes. The adapter also calls `getDateFontSizePx` and `getDateHeaderFontSizePx`, which do not exist. The model follows the evident intent: the constructor takes every field, and the sizes are the stored font sizes.
- PreviewMessages.ImageStep: image area is an unbounded product. Java's 32-bit `int` overflow of `width * height` is not modelled.
- PreviewMessages.IsDescriptionMeta: `equalsIgnoreCase` is modelled for ASCII letters only.
- AdapterRules.IntendedTopInsertion: states the intended order only; that the list stays growable after an insertion into an empty list is not part of the corrected definition.
- Dates.Format: the `SimpleDateFormat` renderings are opaque `Formatted(prefix, pattern, date)` values, not strings. Patterns are assumed valid. In Java the formatter is built from the default pattern before any branch is taken, so a null pattern, or one `SimpleDateFormat` rejects (such as `'`), throws on every call, even for "Just now" and "n minutes ago". The model answers for every pattern.

## Findings

| source | as written | input that shows it | evidently intended | confidence | as-written member | corrected member |
|---|---|---|---|---|---|---|
| chatthread/src/main/java/tk/nathanf/chatthread/components/MessageThreadListAdapter.java:157-171 | into an empty list the prepared batch is stored as is; into a non-empty list each element is inserted at the front, which undoes the preparation. The empty case also installs the fixed-size `Arrays.asList` view, so every later add or remove throws | `addToTop([a, b], false)` on an empty list gives `[b, a]`, but in front of `[c]` it gives `[a, b, c]` | the batch in its own order (reversed when asked) ahead of whatever the list held, in a list that stays growable | medium, not executed | AdapterRules.TopInsertionDependsOnEmptiness | AdapterRules.IntendedTopInsertionIsUniform |
| chatthread/src/main/java/tk/nathanf/chatthread/components/MessageThreadListAdapter.java:221-233 | outgoing rows are offset by the type count, but ids come from a counter that keeps growing when a type is registered again | register text twice more: text gets id 4 with 3 types, so an outgoing text row has view type 7 >= `getViewTypeCount()` = 6, and an incoming text row has 4, the same as an outgoing image row | offset by the id counter (and count twice the counter), so view types stay in range and distinct | medium, not executed | AdapterRules.ReRegistrationBreaksViewTypes | AdapterRules.IntendedViewTypesFit |

`Adapter.ListAdapter.AddToTop` and `Adapter.ListAdapter.GetItemViewType` model the code as written. The corrected definitions are `AdapterRules.IntendedTopInsertion` and `AdapterRules.IntendedViewType`.
