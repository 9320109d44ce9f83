# java-discord-webhook: the message tree, its JSON projection and the two encoders

This Dafny project models the core of `com.hakan.jdw`, a Java library that builds Discord webhook messages.

- **The message tree.** A `Webhook` holds four text slots and a list of `WebhookEmbed`s. An embed holds:
  - text slots;
  - a colour and a timestamp;
  - four optional parts: `WebhookImage`, `WebhookAuthor`, `WebhookFooter` and `WebhookThumbnail`;
  - a list of `WebhookField`s.

  Each node is a class with nullable fields (`Option`, or a nullable reference for a child part) and chainable setters. Each also has a fluent `Builder` class with a `Build` method.
- **The projection.** Each node has a `toJson()`, modelled as a `reads` function onto an abstract `Json` value. An object there is a key-to-value map, because org.json does not keep key order.
- **Lists.** The two lists support add, remove-by-identity, remove-by-index and clear. Each models its `NullPointerException` and `IndexOutOfBoundsException` as a `Result` failure, and the state is unchanged on failure.
- **`WebhookUtils`.**
  - `colorToInt` is modelled in Java `int` arithmetic.
  - `dateToText` is modelled as the calendar's wall clock rendered as `yyyy-MM-dd'T'HH:mm:ss.SSS'Z'`. A `Calendar` is an instant plus a fixed zone offset.
- **`JsonUtils`.** `beautify` and `newLine` are imperative loops, each proved against a specification function.

Each file holds one module:
- `Wrappers`: Option, Exception and Result.
- `Json`: the JSON value, `put` and `append`.
- `Seqs`: the `java.util.List` removals.
- `Strings`: `String.join("\n", …)`.
- `WebhookUtils` and `JsonUtils`.
- One module per node class: `WebhookImages`, `WebhookThumbnails`, `WebhookAuthors`, `WebhookFooters`, `WebhookFields`, `WebhookEmbeds` and `Webhooks`.

Scenario methods build messages through the builders. Their `ensures` give either the built object's fields or its exact projection, for example an embed in the repository tests' colour `(87, 0, 97)`. The projection scenarios rely on a projection lemma for the shape involved.

### Behaviour worth knowing (the model follows the code)
- **Colour.** `colorToInt` of (87, 0, 97) is 87·65536 + 97 = 5701729.
- **Timestamp.** `dateToText` sets the formatter to the calendar's own zone and writes a quoted literal `Z`. So the text is the local wall clock with a `Z` suffix, and the same instant renders differently in different zones (`ZoneChangesText`).
- **Removal.** Removing an absent embed or field is silent (`List.remove(Object)` returns false).
- **Empty lists.** A non-null but empty `embeds`/`fields` list produces no key at all, because `JSONObject.append` creates the array only on its first call.
- **Embed constructor.** The `WebhookEmbed` constructor assigns all ten parameters, `image` included.

## Model

| member | source | states |
|---|---|---|
| Json.PutPresent | src/main/java/com/hakan/jdw/Webhook.java:207-214 | a run of `if (v != null) json.put(k, v)`: every present slot becomes its key with its value, every null slot is absent, and no other key appears |
| Json.Append | src/main/java/com/hakan/jdw/Webhook.java:215-216 | `JSONObject.append`: the first call creates a one-element array, later calls extend it; other keys keep their values |
| Json.AppendAll | src/main/java/com/hakan/jdw/Webhook.java:215-216 | appending each list element in order: onto an existing array it concatenates; with the key absent, an empty list leaves the object unchanged (no key) and a non-empty one creates the array of exactly those elements |
| Seqs.IndexOf | src/main/java/com/hakan/jdw/Webhook.java:174-177 | the position of the first identical element: it holds `x` and no earlier position does |
| Seqs.RemoveAt | src/main/java/com/hakan/jdw/Webhook.java:185-188 | `List.remove(int)`: one shorter, elements before `i` kept, elements after it shifted down by one, and the multiset loses exactly `s[i]` |
| Seqs.RemoveFirst | src/main/java/com/hakan/jdw/Webhook.java:174-177 | `List.remove(Object)`: unchanged when absent; otherwise exactly the first identical element is cut out |
| Seqs.RemoveFirstUndoesAppend | src/main/java/com/hakan/jdw/Webhook.java:163-177 | adding an element not yet in the list and then removing it restores the list |
| Seqs.AppendThenRemoveMovesEarlierCopy | src/main/java/com/hakan/jdw/Webhook.java:163-177 | when the element is already present, add-then-remove removes the earlier copy, so the list is reordered rather than restored |
| Strings.JoinLines | src/main/java/com/hakan/jdw/Webhook.java:97-111 | `String.join("\n", parts)`: no fragment gives "", one fragment is kept unchanged, and the length is the fragments' total plus one per separator |
| Strings.SplitJoinLines | src/main/java/com/hakan/jdw/Webhook.java:97-111 | fragments without line breaks of their own are recovered exactly by splitting the joined text at its line breaks |
| Strings.FirstBreak | src/main/java/com/hakan/jdw/Webhook.java:97-111 | the first line break: it is one and none occurs before it |
| WebhookUtils.Int32 | src/main/java/com/hakan/jdw/utils/WebhookUtils.java:49-54 | Java `int` wrap: the result is in the 32-bit range and equals the exact value whenever that value is in range |
| WebhookUtils.ColorToInt | src/main/java/com/hakan/jdw/utils/WebhookUtils.java:49-54 | `(r << 8) + g` then `<< 8 + b` in `int` arithmetic equals r·65536 + g·256 + b and lies in [0, 0xFFFFFF]: it never wraps |
| WebhookUtils.IntToColor | src/main/java/com/hakan/jdw/utils/WebhookUtils.java:49-54 | unpacking a 24-bit value gives a colour that packs back to it |
| WebhookUtils.ColorRoundTrip | src/main/java/com/hakan/jdw/utils/WebhookUtils.java:49-54 | packing loses nothing: red = x / 65536, green = (x / 256) % 256 and blue = x % 256 |
| WebhookUtils.TestColorPacks | src/test/java/com/hakan/jdw/WebhookTest.java:32 | the tests' colour (87, 0, 97) packs to 5701729 |
| WebhookUtils.DaysBeforeMonth | src/main/java/com/hakan/jdw/utils/WebhookUtils.java:36-40 | the Gregorian cumulative month table: 0 before January, the whole year before the 13th month |
| WebhookUtils.MonthLength | src/main/java/com/hakan/jdw/utils/WebhookUtils.java:36-40 | each month's length is the step between consecutive month starts |
| WebhookUtils.YearOf | src/main/java/com/hakan/jdw/utils/WebhookUtils.java:36-40 | the year holding a day number, and the day within that year, which is below the year's length and accounts for every day |
| WebhookUtils.MonthOf | src/main/java/com/hakan/jdw/utils/WebhookUtils.java:36-40 | the month holding a day of the year: that day lies between the month's start and the next month's start |
| WebhookUtils.SplitDay | src/main/java/com/hakan/jdw/utils/WebhookUtils.java:36-40 | milliseconds within a day split into hour < 24, minute < 60, second < 60 and millisecond < 1000, which recombine to the input |
| WebhookUtils.WallClock | src/main/java/com/hakan/jdw/utils/WebhookUtils.java:39-40 | the calendar's wall clock is a valid Gregorian date-time whose millisecond count is the instant plus the zone offset |
| WebhookUtils.Digits | src/main/java/com/hakan/jdw/utils/WebhookUtils.java:37-38 | the decimal text of a number is non-empty and all digits |
| WebhookUtils.Pad | src/main/java/com/hakan/jdw/utils/WebhookUtils.java:37-38 | SimpleDateFormat's minimum-width number: all digits and at least the width |
| WebhookUtils.DigitsRoundTrip | src/main/java/com/hakan/jdw/utils/WebhookUtils.java:37-38 | reading back the decimal text of a number gives the number |
| WebhookUtils.DigitsFit | src/main/java/com/hakan/jdw/utils/WebhookUtils.java:37-38 | a number below 10^w has at most w digits |
| WebhookUtils.LeadingZeros | src/main/java/com/hakan/jdw/utils/WebhookUtils.java:37-38 | leading zeros do not change a digit string's value |
| WebhookUtils.PadRoundTrip | src/main/java/com/hakan/jdw/utils/WebhookUtils.java:37-38 | a number below 10^w pads to exactly w digits that read back as the number |
| WebhookUtils.ParseFields | src/main/java/com/hakan/jdw/utils/WebhookUtils.java:37-38 | reading a pattern's text back yields one value per pattern piece |
| WebhookUtils.RenderRoundTrip | src/main/java/com/hakan/jdw/utils/WebhookUtils.java:37-38 | values that fit their widths render in the pattern's fixed length and parse back unchanged |
| WebhookUtils.ParseFormat | src/main/java/com/hakan/jdw/utils/WebhookUtils.java:37-40 | for years up to 9999 the `yyyy-MM-dd'T'HH:mm:ss.SSS'Z'` text has 24 characters and parses back to the same date-time |
| WebhookUtils.DateToText | src/main/java/com/hakan/jdw/utils/WebhookUtils.java:36-41 | `dateToText` always ends in the literal Z, and for years up to 9999 it is 24 characters that read back as the calendar's own wall clock |
| WebhookUtils.DateToTextRoundTrip | src/main/java/com/hakan/jdw/utils/WebhookUtils.java:36-40 | `dateToText` is 24 characters long and reads back as a valid date-time equal to the instant plus the zone offset: the wall clock, not the UTC instant |
| WebhookUtils.MillisField | src/main/java/com/hakan/jdw/utils/WebhookUtils.java:37-40 | the `.SSS` field holds (instant + offset) mod 1000 |
| WebhookUtils.DayKeepsMillis | src/main/java/com/hakan/jdw/utils/WebhookUtils.java:37-40 | reducing modulo whole days keeps the milliseconds within the second |
| WebhookUtils.ZoneShiftsWallClock | src/main/java/com/hakan/jdw/utils/WebhookUtils.java:39-40 | only the wall clock matters: a zone offset d renders as the instant moved by d in UTC |
| WebhookUtils.EndsWithZ | src/main/java/com/hakan/jdw/utils/WebhookUtils.java:37-38 | whatever the zone, the text ends in the literal Z |
| WebhookUtils.RenderEndsWithLiteral | src/main/java/com/hakan/jdw/utils/WebhookUtils.java:37-38 | a rendered pattern ends with its last piece's literal |
| WebhookUtils.JanuaryDays | src/main/java/com/hakan/jdw/utils/WebhookUtils.java:36-40 | any of the first 31 days of a year lies in January |
| WebhookUtils.FirstDayWallClock | src/main/java/com/hakan/jdw/utils/WebhookUtils.java:39-40 | a wall clock within the first day of 1970 reads 1970-01-01 at the hour of its millisecond count |
| WebhookUtils.EpochWallClock | src/main/java/com/hakan/jdw/utils/WebhookUtils.java:39-40 | epoch 0 at offset 0 is 1970-01-01T00:00:00.000, and at offset +1h it is 01:00 on the same day |
| WebhookUtils.EpochText | src/main/java/com/hakan/jdw/utils/WebhookUtils.java:36-40 | epoch 0 at offset 0 renders as 24 characters ending in Z that read back as 1970-01-01T00:00:00.000 |
| WebhookUtils.ZoneChangesText | src/main/java/com/hakan/jdw/utils/WebhookUtils.java:39-40 | the same instant renders differently in UTC and UTC+1, although there is no UTC conversion and both end in Z |
| JsonUtils.Spaces | src/main/java/com/hakan/jdw/utils/JsonUtils.java:61-68 | the indentation has two characters per step and none for a count ≤ 0 |
| JsonUtils.SpacesBlank | src/main/java/com/hakan/jdw/utils/JsonUtils.java:61-68 | every character of the indentation is a space |
| JsonUtils.NewLineShape | src/main/java/com/hakan/jdw/utils/JsonUtils.java:61-68 | `newLine(k)` is one line break followed by 2k spaces, and just the break for k ≤ 0 |
| JsonUtils.NewLine | src/main/java/com/hakan/jdw/utils/JsonUtils.java:61-68 | the loop appending two spaces per tab builds exactly `NewLineText(tabCount)` |
| JsonUtils.Beautify | src/main/java/com/hakan/jdw/utils/JsonUtils.java:25-52 | the loop over the characters returns exactly `Beautified(input)`: the text of the whole run, or the ArrayIndexOutOfBoundsException of the first out-of-range read |
| JsonUtils.TurnAppends | src/main/java/com/hakan/jdw/utils/JsonUtils.java:30-49 | one turn writes a line before a closing bracket not ending an empty pair, then the character, then a line after an opening bracket not starting an empty pair or after a comma |
| JsonUtils.FailurePersists | src/main/java/com/hakan/jdw/utils/JsonUtils.java:30-49 | once a turn has thrown, the rest of the run ends in that same exception |
| JsonUtils.DepthStep | src/main/java/com/hakan/jdw/utils/JsonUtils.java:33-40 | one more character moves the bracket count (openings minus closings, counted over the text) as the loop moves `tabCount` |
| JsonUtils.DepthTracks | src/main/java/com/hakan/jdw/utils/JsonUtils.java:29-40 | after a prefix, `tabCount` equals the number of `{`/`[` in the prefix minus the number of `}`/`]`, counted independently of the loop |
| JsonUtils.RunFails | src/main/java/com/hakan/jdw/utils/JsonUtils.java:34-41 | a prefix run fails exactly when the input starts with a closing bracket, or the prefix is the whole input and ends with an opening bracket |
| JsonUtils.BeautifyFails | src/main/java/com/hakan/jdw/utils/JsonUtils.java:34-41 | beautify throws exactly when the input starts with `}`/`]` or ends with `{`/`[`, and then it throws ArrayIndexOutOfBoundsException |
| JsonUtils.FailureIsOutOfBounds | src/main/java/com/hakan/jdw/utils/JsonUtils.java:34-41 | the only exception the loop raises is the out-of-bounds read |
| JsonUtils.VisibleAppend | src/main/java/com/hakan/jdw/utils/JsonUtils.java:30-49 | removing blanks distributes over concatenation |
| JsonUtils.VisibleNewLine | src/main/java/com/hakan/jdw/utils/JsonUtils.java:61-68 | `newLine(k)` consists of blanks only |
| JsonUtils.BlankInvisible | src/main/java/com/hakan/jdw/utils/JsonUtils.java:61-68 | a text of line breaks and spaces has no visible characters |
| JsonUtils.VisibleChar | src/main/java/com/hakan/jdw/utils/JsonUtils.java:31-38 | one character is invisible exactly when it is a line break or a space |
| JsonUtils.VisibleEmitted | src/main/java/com/hakan/jdw/utils/JsonUtils.java:30-49 | what one turn appends is its character plus blanks |
| JsonUtils.VisiblePrefix | src/main/java/com/hakan/jdw/utils/JsonUtils.java:30-49 | the visible part of a prefix grows by the visible part of its last character |
| JsonUtils.OnlyWhitespaceAdded | src/main/java/com/hakan/jdw/utils/JsonUtils.java:30-49 | every input character is copied once and in order, and only line breaks and spaces are added: with blanks removed, output and input agree |
| JsonUtils.PlainTextUnchanged | src/main/java/com/hakan/jdw/utils/JsonUtils.java:25-52 | with no bracket and no comma, every prefix run copies the prefix and the depth stays 0 |
| JsonUtils.PlainBeautified | src/main/java/com/hakan/jdw/utils/JsonUtils.java:25-52 | an input with no bracket and no comma comes back unchanged |
| JsonUtils.CommaBreaksLine | src/main/java/com/hakan/jdw/utils/JsonUtils.java:47-48 | every comma, even one inside a quoted string, is followed by a line break indented to the depth of the text up to it |
| JsonUtils.EmptyPairStaysTogether | src/main/java/com/hakan/jdw/utils/JsonUtils.java:32-42 | an opening bracket directly followed by a closing one is copied as the pair with nothing between, and the depth comes back to where it was |
| JsonUtils.ClosingOnNewLine | src/main/java/com/hakan/jdw/utils/JsonUtils.java:32-36 | a closing bracket that does not close an empty pair goes on a new line indented to the already-decremented depth |
| JsonUtils.OneLevel | src/main/java/com/hakan/jdw/utils/JsonUtils.java:61-68 | `newLine(1)` is a line break and two spaces |
| JsonUtils.ArrayExampleFirstElement | src/main/java/com/hakan/jdw/utils/JsonUtils.java:25-52 | the first three characters of `[1,2]` give the bracket on its own line, the element and its comma |
| JsonUtils.ArrayExample | src/main/java/com/hakan/jdw/utils/JsonUtils.java:25-52 | `[1,2]` beautifies to one element per line at depth 1, with the closing bracket back on its own line |
| WebhookImages.WebhookImage.constructor | src/main/java/com/hakan/jdw/WebhookImage.java:19-21 | stores its URL, null included |
| WebhookImages.WebhookImage.GetUrl | src/main/java/com/hakan/jdw/WebhookImage.java:28-30 | returns the stored URL: it is set exactly when the projection has a "url" member, and it is that member's text |
| WebhookImages.WebhookImage.SetUrl | src/main/java/com/hakan/jdw/WebhookImage.java:38-41 | replaces the URL, null allowed, and returns the same object |
| WebhookImages.WebhookImage.ToJson | src/main/java/com/hakan/jdw/WebhookImage.java:47-54 | `{"url": url}` when the URL is set and `{}` otherwise |
| WebhookImages.Builder.constructor | src/main/java/com/hakan/jdw/WebhookImage.java:63 | a new builder has no URL |
| WebhookImages.Builder.Url | src/main/java/com/hakan/jdw/WebhookImage.java:71-74 | sets the URL and returns the same builder |
| WebhookImages.Builder.Build | src/main/java/com/hakan/jdw/WebhookImage.java:80-84 | a fresh image holding the builder's URL |
| WebhookImages.EmptyBuilderProjection | src/main/java/com/hakan/jdw/WebhookImage.java:63-84 | an untouched builder builds an image projecting to `{}` |
| WebhookImages.LastUrlWins | src/main/java/com/hakan/jdw/WebhookImage.java:71-84 | of two `url` calls the last decides the projection |
| WebhookThumbnails.WebhookThumbnail.constructor | src/main/java/com/hakan/jdw/WebhookThumbnail.java:19-21 | stores its URL, null included |
| WebhookThumbnails.WebhookThumbnail.GetUrl | src/main/java/com/hakan/jdw/WebhookThumbnail.java:28-30 | returns the stored URL: it is set exactly when the projection has a "url" member, and it is that member's text |
| WebhookThumbnails.WebhookThumbnail.SetUrl | src/main/java/com/hakan/jdw/WebhookThumbnail.java:38-41 | replaces the URL, null allowed, and returns the same object |
| WebhookThumbnails.WebhookThumbnail.ToJson | src/main/java/com/hakan/jdw/WebhookThumbnail.java:47-54 | `{"url": url}` when the URL is set and `{}` otherwise |
| WebhookThumbnails.Builder.constructor | src/main/java/com/hakan/jdw/WebhookThumbnail.java:63 | a new builder has no URL |
| WebhookThumbnails.Builder.Url | src/main/java/com/hakan/jdw/WebhookThumbnail.java:71-74 | sets the URL and returns the same builder |
| WebhookThumbnails.Builder.Build | src/main/java/com/hakan/jdw/WebhookThumbnail.java:80-84 | a fresh thumbnail holding the builder's URL |
| WebhookThumbnails.EmptyBuilderProjection | src/main/java/com/hakan/jdw/WebhookThumbnail.java:63-84 | an untouched builder builds a thumbnail projecting to `{}` |
| WebhookThumbnails.LastUrlWins | src/main/java/com/hakan/jdw/WebhookThumbnail.java:71-84 | of two `url` calls the last decides the projection |
| WebhookAuthors.WebhookAuthor.constructor | src/main/java/com/hakan/jdw/WebhookAuthor.java:25-31 | stores `url`, `name` and `iconUrl` one-to-one |
| WebhookAuthors.WebhookAuthor.SetUrl | src/main/java/com/hakan/jdw/WebhookAuthor.java:66-69 | replaces only the URL and returns the same object |
| WebhookAuthors.WebhookAuthor.SetName | src/main/java/com/hakan/jdw/WebhookAuthor.java:77-91 | both overloads store the `"\n"`-join of the fragments |
| WebhookAuthors.WebhookAuthor.SetIconUrl | src/main/java/com/hakan/jdw/WebhookAuthor.java:99-102 | replaces only the icon URL and returns the same object |
| WebhookAuthors.WebhookAuthor.ToJson | src/main/java/com/hakan/jdw/WebhookAuthor.java:108-119 | `url`, `name` and `icon_url` each present exactly when set, with its value, and no other key |
| WebhookAuthors.Builder.constructor | src/main/java/com/hakan/jdw/WebhookAuthor.java:128-130 | a new builder has every slot unset |
| WebhookAuthors.Builder.Url | src/main/java/com/hakan/jdw/WebhookAuthor.java:138-141 | sets the URL and returns the same builder |
| WebhookAuthors.Builder.Name | src/main/java/com/hakan/jdw/WebhookAuthor.java:149-163 | both overloads store the `"\n"`-join of the fragments |
| WebhookAuthors.Builder.IconUrl | src/main/java/com/hakan/jdw/WebhookAuthor.java:171-174 | sets the icon URL and returns the same builder |
| WebhookAuthors.Builder.Build | src/main/java/com/hakan/jdw/WebhookAuthor.java:180-185 | a fresh author holding the three slots one-to-one |
| WebhookAuthors.EmptyBuilderProjection | src/main/java/com/hakan/jdw/WebhookAuthor.java:128-185 | an untouched builder builds an author projecting to `{}` |
| WebhookFooters.WebhookFooter.constructor | src/main/java/com/hakan/jdw/WebhookFooter.java:23-27 | stores `text` and `iconUrl` one-to-one |
| WebhookFooters.WebhookFooter.SetText | src/main/java/com/hakan/jdw/WebhookFooter.java:53-67 | both overloads store the `"\n"`-join of the fragments |
| WebhookFooters.WebhookFooter.SetIconUrl | src/main/java/com/hakan/jdw/WebhookFooter.java:75-78 | replaces only the icon URL and returns the same object |
| WebhookFooters.WebhookFooter.ToJson | src/main/java/com/hakan/jdw/WebhookFooter.java:84-93 | `text` and `icon_url` each present exactly when set, and no other key |
| WebhookFooters.Builder.constructor | src/main/java/com/hakan/jdw/WebhookFooter.java:102-103 | a new builder has both slots unset |
| WebhookFooters.Builder.Text | src/main/java/com/hakan/jdw/WebhookFooter.java:111-125 | both overloads store the `"\n"`-join of the fragments |
| WebhookFooters.Builder.IconUrl | src/main/java/com/hakan/jdw/WebhookFooter.java:133-136 | sets the icon URL and returns the same builder |
| WebhookFooters.Builder.Build | src/main/java/com/hakan/jdw/WebhookFooter.java:142-146 | a fresh footer holding both slots one-to-one |
| WebhookFooters.EmptyBuilderProjection | src/main/java/com/hakan/jdw/WebhookFooter.java:102-146 | an untouched builder builds a footer projecting to `{}` |
| WebhookFields.WebhookField.constructor | src/main/java/com/hakan/jdw/WebhookField.java:25-31 | stores exactly its three arguments |
| WebhookFields.WebhookField.SetName | src/main/java/com/hakan/jdw/WebhookField.java:66-80 | both overloads store the `"\n"`-join of the fragments |
| WebhookFields.WebhookField.SetValue | src/main/java/com/hakan/jdw/WebhookField.java:88-102 | both overloads store the `"\n"`-join of the fragments |
| WebhookFields.WebhookField.SetInline | src/main/java/com/hakan/jdw/WebhookField.java:110-113 | null removes `inline` from the projection; a boolean makes it present with that value |
| WebhookFields.WebhookField.ToJson | src/main/java/com/hakan/jdw/WebhookField.java:119-130 | `name`, `value` and `inline` each present exactly when set, and no other key |
| WebhookFields.Builder.constructor | src/main/java/com/hakan/jdw/WebhookField.java:139-141 | defaults `name = ""`, `value = ""` and a primitive `inline = false` |
| WebhookFields.Builder.Name | src/main/java/com/hakan/jdw/WebhookField.java:149-163 | both overloads store the `"\n"`-join of the fragments |
| WebhookFields.Builder.Value | src/main/java/com/hakan/jdw/WebhookField.java:171-185 | both overloads store the `"\n"`-join of the fragments |
| WebhookFields.Builder.Inline | src/main/java/com/hakan/jdw/WebhookField.java:193-196 | sets the flag and returns the same builder |
| WebhookFields.Builder.Build | src/main/java/com/hakan/jdw/WebhookField.java:202-207 | a fresh field with all three slots set, so its projection has exactly the keys name, value and inline |
| WebhookFields.NameOnlyProjection | src/main/java/com/hakan/jdw/WebhookField.java:139-207 | a field built with only a name still projects `"value": ""` and `"inline": false` |
| WebhookEmbeds.ColorJson | src/main/java/com/hakan/jdw/WebhookEmbed.java:337-338 | the colour member is present exactly when a colour is set, and is then its packed value in [0, 0xFFFFFF] |
| WebhookEmbeds.TimestampJson | src/main/java/com/hakan/jdw/WebhookEmbed.java:339-340 | the timestamp member is present exactly when a timestamp is set, and is then its `dateToText` |
| WebhookEmbeds.FieldsJson | src/main/java/com/hakan/jdw/WebhookEmbed.java:349-350 | the fields' projections, one per field and in list order |
| WebhookEmbeds.PutMembers | src/main/java/com/hakan/jdw/WebhookEmbed.java:331-348 | the nine puts: each key present exactly when its value is, no "fields" key, and only embed keys |
| WebhookEmbeds.EmbedObject | src/main/java/com/hakan/jdw/WebhookEmbed.java:328-353 | the nine puts then the appends: the nine keys as put, plus "fields" exactly when the list is non-empty, holding the list |
| WebhookEmbeds.WebhookEmbed.constructor | src/main/java/com/hakan/jdw/WebhookEmbed.java:48-68 | assigns each of the ten parameters to its like-named field, `image` included |
| WebhookEmbeds.WebhookEmbed.SetUrl | src/main/java/com/hakan/jdw/WebhookEmbed.java:166-169 | replaces only the URL and returns the same object |
| WebhookEmbeds.WebhookEmbed.SetTitle | src/main/java/com/hakan/jdw/WebhookEmbed.java:177-180 | replaces only the title and returns the same object |
| WebhookEmbeds.WebhookEmbed.SetDescription | src/main/java/com/hakan/jdw/WebhookEmbed.java:188-202 | both overloads store the `"\n"`-join of the fragments |
| WebhookEmbeds.WebhookEmbed.SetColor | src/main/java/com/hakan/jdw/WebhookEmbed.java:210-213 | replaces only the colour and returns the same object |
| WebhookEmbeds.WebhookEmbed.SetTimestamp | src/main/java/com/hakan/jdw/WebhookEmbed.java:221-224 | replaces only the timestamp and returns the same object |
| WebhookEmbeds.WebhookEmbed.SetImage | src/main/java/com/hakan/jdw/WebhookEmbed.java:232-235 | replaces only the image and returns the same object |
| WebhookEmbeds.WebhookEmbed.SetAuthor | src/main/java/com/hakan/jdw/WebhookEmbed.java:243-246 | replaces only the author and returns the same object |
| WebhookEmbeds.WebhookEmbed.SetFooter | src/main/java/com/hakan/jdw/WebhookEmbed.java:254-257 | replaces only the footer and returns the same object |
| WebhookEmbeds.WebhookEmbed.SetThumbnail | src/main/java/com/hakan/jdw/WebhookEmbed.java:265-268 | replaces only the thumbnail and returns the same object |
| WebhookEmbeds.WebhookEmbed.SetFields | src/main/java/com/hakan/jdw/WebhookEmbed.java:276-279 | replaces only the field list, null allowed, and returns the same object |
| WebhookEmbeds.WebhookEmbed.AddField | src/main/java/com/hakan/jdw/WebhookEmbed.java:287-290 | a null list throws NullPointerException and changes nothing; otherwise the list becomes old + [field] and the field's projection ends the projected list |
| WebhookEmbeds.WebhookEmbed.RemoveField | src/main/java/com/hakan/jdw/WebhookEmbed.java:298-301 | a null list throws; otherwise the first identical field is removed, and an absent one changes nothing |
| WebhookEmbeds.WebhookEmbed.RemoveFieldAt | src/main/java/com/hakan/jdw/WebhookEmbed.java:309-312 | a null list throws NullPointerException, an index outside [0, size) throws IndexOutOfBoundsException, and otherwise exactly that position is removed |
| WebhookEmbeds.WebhookEmbed.ClearFields | src/main/java/com/hakan/jdw/WebhookEmbed.java:319-322 | a null list throws; otherwise the list empties and "fields" leaves the projection |
| WebhookEmbeds.WebhookEmbed.ToJson | src/main/java/com/hakan/jdw/WebhookEmbed.java:328-353 | url, title and description under their own names, the packed colour, the timestamp text and each child's own projection, each exactly when set; "fields" exactly when the list is non-null and non-empty, holding the field projections in order; no other key |
| WebhookEmbeds.Builder.constructor | src/main/java/com/hakan/jdw/WebhookEmbed.java:362-371 | a new builder has every slot unset and an empty field list |
| WebhookEmbeds.Builder.Url | src/main/java/com/hakan/jdw/WebhookEmbed.java:379-382 | sets the URL and returns the same builder |
| WebhookEmbeds.Builder.Title | src/main/java/com/hakan/jdw/WebhookEmbed.java:390-393 | sets the title and returns the same builder |
| WebhookEmbeds.Builder.Description | src/main/java/com/hakan/jdw/WebhookEmbed.java:401-415 | both overloads store the `"\n"`-join of the fragments |
| WebhookEmbeds.Builder.Color | src/main/java/com/hakan/jdw/WebhookEmbed.java:423-426 | sets the colour and returns the same builder |
| WebhookEmbeds.Builder.Timestamp | src/main/java/com/hakan/jdw/WebhookEmbed.java:434-437 | keeps the given calendar |
| WebhookEmbeds.Builder.TimestampAt | src/main/java/com/hakan/jdw/WebhookEmbed.java:446-488 | all four (instant, zone) overloads become that instant paired with the zone's offset |
| WebhookEmbeds.Builder.Image | src/main/java/com/hakan/jdw/WebhookEmbed.java:496-499 | sets the image and returns the same builder |
| WebhookEmbeds.Builder.Author | src/main/java/com/hakan/jdw/WebhookEmbed.java:507-510 | sets the author and returns the same builder |
| WebhookEmbeds.Builder.Footer | src/main/java/com/hakan/jdw/WebhookEmbed.java:518-521 | sets the footer and returns the same builder |
| WebhookEmbeds.Builder.Thumbnail | src/main/java/com/hakan/jdw/WebhookEmbed.java:529-532 | sets the thumbnail and returns the same builder |
| WebhookEmbeds.Builder.Fields | src/main/java/com/hakan/jdw/WebhookEmbed.java:540-543 | replaces the whole list |
| WebhookEmbeds.Builder.Field | src/main/java/com/hakan/jdw/WebhookEmbed.java:551-554 | appends the field to the list |
| WebhookEmbeds.Builder.ImageFrom | src/main/java/com/hakan/jdw/WebhookEmbed.java:563-565 | sets a fresh image built by the configured image builder |
| WebhookEmbeds.Builder.AuthorFrom | src/main/java/com/hakan/jdw/WebhookEmbed.java:574-576 | sets a fresh author built by the configured author builder, with its three slots |
| WebhookEmbeds.Builder.FooterFrom | src/main/java/com/hakan/jdw/WebhookEmbed.java:585-587 | sets a fresh footer built by the configured footer builder, with its two slots |
| WebhookEmbeds.Builder.ThumbnailFrom | src/main/java/com/hakan/jdw/WebhookEmbed.java:596-598 | sets a fresh thumbnail built by the configured thumbnail builder |
| WebhookEmbeds.Builder.FieldFrom | src/main/java/com/hakan/jdw/WebhookEmbed.java:607-609 | appends a fresh field built by the configured field builder, leaving the earlier fields in place |
| WebhookEmbeds.Builder.Build | src/main/java/com/hakan/jdw/WebhookEmbed.java:615-628 | a fresh embed holding every slot as it is, and the list always non-null |
| WebhookEmbeds.EmptyEmbedProjection | src/main/java/com/hakan/jdw/WebhookEmbed.java:328-353 | an embed with nothing set and no field projects to `{}` |
| WebhookEmbeds.EmptyBuilderProjection | src/main/java/com/hakan/jdw/WebhookEmbed.java:371 | an untouched builder builds an embed projecting to `{}`, with no "fields" key for the empty list |
| WebhookEmbeds.ColorOnlyProjection | src/main/java/com/hakan/jdw/WebhookEmbed.java:337-338 | a builder given only a colour projects to the single member "color" holding the packed value |
| WebhookEmbeds.TwoFieldEmbed | src/main/java/com/hakan/jdw/WebhookEmbed.java:551-554 | two `field` calls leave exactly those two fields, in call order, and nothing else set |
| WebhookEmbeds.FieldsKeepOrder | src/main/java/com/hakan/jdw/WebhookEmbed.java:349-350 | two fields project alone, in the order they were added |
| WebhookEmbeds.ColorAndFieldProjection | src/main/java/com/hakan/jdw/WebhookEmbed.java:337-350 | an embed with only a colour and one field projects to the packed colour and a one-element "fields" array |
| WebhookEmbeds.ColorAndFieldEmbed | src/main/java/com/hakan/jdw/WebhookEmbed.java:607-627 | a builder given the colour (87, 0, 97) and one field through `field(builderFunction)` builds an embed holding exactly that colour and that one inline field N = V |
| Webhooks.EmbedsJson | src/main/java/com/hakan/jdw/Webhook.java:215-216 | the embeds' projections, one per embed and in list order |
| Webhooks.PutMembers | src/main/java/com/hakan/jdw/Webhook.java:207-214 | the four puts: each key present exactly when its value is, no "embeds" key, and only message keys |
| Webhooks.MessageObject | src/main/java/com/hakan/jdw/Webhook.java:204-219 | the four puts then the appends: "embeds" is present exactly when the list is non-empty, holding the list |
| Webhooks.Webhook.constructor | src/main/java/com/hakan/jdw/Webhook.java:34-45 | stores exactly its five arguments, a null list included |
| Webhooks.Webhook.SetContent | src/main/java/com/hakan/jdw/Webhook.java:97-111 | both overloads store the `"\n"`-join of the fragments, and "" for none |
| Webhooks.Webhook.SetUsername | src/main/java/com/hakan/jdw/Webhook.java:119-122 | replaces only the username and returns the same object |
| Webhooks.Webhook.SetAvatarUrl | src/main/java/com/hakan/jdw/Webhook.java:130-133 | replaces only the avatar URL and returns the same object |
| Webhooks.Webhook.SetThreadName | src/main/java/com/hakan/jdw/Webhook.java:141-144 | replaces only the thread name and returns the same object |
| Webhooks.Webhook.SetEmbeds | src/main/java/com/hakan/jdw/Webhook.java:152-155 | replaces only the embed list, null allowed |
| Webhooks.Webhook.AddEmbed | src/main/java/com/hakan/jdw/Webhook.java:163-166 | a null list throws NullPointerException and changes nothing; otherwise the list becomes old + [embed] |
| Webhooks.Webhook.RemoveEmbed | src/main/java/com/hakan/jdw/Webhook.java:174-177 | a null list throws; otherwise the first identical embed is removed, and an absent one changes nothing |
| Webhooks.Webhook.RemoveEmbedAt | src/main/java/com/hakan/jdw/Webhook.java:185-188 | a null list throws NullPointerException, an index outside [0, size) throws IndexOutOfBoundsException, and otherwise `embeds[..i] + embeds[i+1..]` |
| Webhooks.Webhook.ClearEmbeds | src/main/java/com/hakan/jdw/Webhook.java:195-198 | a null list throws; otherwise the list empties and "embeds" leaves the projection |
| Webhooks.Webhook.ToJson | src/main/java/com/hakan/jdw/Webhook.java:204-219 | content, username, avatar_url and thread_name each present exactly when set; "embeds" exactly when the list is non-null and non-empty, holding each embed's projection in list order; no other key |
| Webhooks.Builder.constructor | src/main/java/com/hakan/jdw/Webhook.java:239-243 | a new builder has every text slot unset and an empty embed list |
| Webhooks.Builder.Content | src/main/java/com/hakan/jdw/Webhook.java:251-265 | both overloads store the `"\n"`-join of the fragments |
| Webhooks.Builder.Username | src/main/java/com/hakan/jdw/Webhook.java:273-276 | sets the username and returns the same builder |
| Webhooks.Builder.AvatarUrl | src/main/java/com/hakan/jdw/Webhook.java:284-287 | sets the avatar URL and returns the same builder |
| Webhooks.Builder.ThreadName | src/main/java/com/hakan/jdw/Webhook.java:295-298 | sets the thread name and returns the same builder |
| Webhooks.Builder.Embeds | src/main/java/com/hakan/jdw/Webhook.java:306-309 | replaces the whole list |
| Webhooks.Builder.Embed | src/main/java/com/hakan/jdw/Webhook.java:317-320 | appends the embed to the list |
| Webhooks.Builder.EmbedFrom | src/main/java/com/hakan/jdw/Webhook.java:329-331 | appends a fresh embed built by the configured embed builder, with all its slots |
| Webhooks.Builder.Build | src/main/java/com/hakan/jdw/Webhook.java:337-345 | a fresh message holding the five slots unchanged, the list always non-null |
| Webhooks.EmbedsOnlyProjection | src/main/java/com/hakan/jdw/Webhook.java:204-219 | a message with one embed and no text projects to `{"embeds": [that embed's projection]}` |
| Webhooks.EmptyEmbedMessage | src/test/java/com/hakan/jdw/WebhookTest.java:119-121 | the message built with one untouched embed builder projects to `{"embeds": [{}]}` |
| Webhooks.ContentUsernameProjection | src/main/java/com/hakan/jdw/Webhook.java:204-219 | a message with content, username and one embed projects to exactly those three members |
| Webhooks.HakanMessage | src/main/java/com/hakan/jdw/Webhook.java:251-345 | a builder given username, one content fragment and one embed builds a message holding exactly those |
| Webhooks.ExampleMessage | src/main/java/com/hakan/jdw/Webhook.java:204-219 | the message with username "Hakan", content "Hi" and one embed of colour (87, 0, 97) and one inline field projects to exactly its three members, the colour written as 5701729 |

## Left out

- **HTTP delivery.** `WebhookUtils.execute` (both overloads) and `Webhook.execute` are I/O and are not modelled.
- **JSON text.** `BaseObject.toJsonString`, org.json's `JSONObject.toString` and its parsing are foreign library code. The model stops at the abstract `Json` value, where key order is not observable.
- **Time zones and calendars.**
  - Time-zone ID lookup (`TimeZone.getTimeZone`) and DST rules are not modelled. A zone is a fixed offset in milliseconds.
  - The `Calendar`/`SimpleDateFormat` internals are not modelled either: the Julian/Gregorian switch, and the years before 1970 (the `Timestamp` subset type requires a wall clock of at least 0).
- **Colours.** `java.awt.Color` is a triple of channels in [0, 255]. Its constructor's rejection of other values is the subset type `Channel`.
- **`String.join` edge cases.** A null varargs array throws, and a null fragment is written as "null"; neither is modelled. Fragments are a `seq<string>`, and one method stands for the varargs and the `List` overloads, so the two forms agree by construction.
- **Null list elements.** Adding `null` to a list is not modelled. The list element types are non-null references, so a later `toJson` cannot hit the `NullPointerException` it would raise.
- **Aliasing.** A list is a sequence value held in a field. The Java `ArrayList` is shared between the builder, the built object and any caller that passed it in, and mutations through one alias are not seen through the others in the model. For the same reason, the mutators cannot fail with `UnsupportedOperationException`. In Java they do when the list is unmodifiable, whether it came from a caller through `setEmbeds`/`setFields`, a constructor, or `Builder.embeds(List)`/`fields(List)` followed by `embed`/`field`. That exception is absent from the `Result` of `Webhooks.Webhook.AddEmbed`, `RemoveEmbed`, `RemoveEmbedAt` and `ClearEmbeds`, of `WebhookEmbeds.WebhookEmbed.AddField`, `RemoveField`, `RemoveFieldAt` and `ClearFields`, and of the builders' `Embed`, `EmbedFrom`, `Field` and `FieldFrom`. The same holds for the timestamp. Java keeps the caller's mutable `Calendar` by reference in `setTimestamp` and `Builder.timestamp(Calendar)`, and `build()` shares it with the embed. A later `setTimeInMillis` by the caller would change what `toJson` prints. The model stores an immutable `Timestamp` value, so it never sees that change.
- **Builder callbacks.** A `UnaryOperator<…Builder>` callback is modelled as the builder it returns, configured by the caller (`ImageFrom`, `EmbedFrom`, …), not as a function applied to a fresh builder.
- WebhookEmbeds.Builder.TimestampAt: the four overloads are one method taking epoch milliseconds and a fixed offset. `Date` versus `long`, and `TimeZone` versus its string ID, are not distinguished, because the ID lookup is left out. The method requires a wall clock of at least 0.
- Webhooks.Webhook.AddEmbed: states the new list but not the new projection. `WebhookEmbeds.WebhookEmbed.AddField` states the new list of field projections, and `Webhook.ToJson` gives the projection of any list.
- WebhookEmbeds.WebhookEmbed.AddField: states the new list of field projections, not the whole new object projection.
- JsonUtils.OnlyWhitespaceAdded: compares output and input with line breaks and spaces removed, so it does not separate a space of the input from an added one. `TurnAppends` states the exact text of each turn.
- WebhookUtils.DateToText: assumes a Gregorian calendar and a default locale that writes ASCII digits. `new SimpleDateFormat(pattern)` takes the JVM's default locale, so a Buddhist (`th_TH`) or Japanese imperial (`ja_JP_JP`) calendar would change the year, and `th_TH_TH` would print Thai digits. Neither is modelled.
- WebhookUtils.EpochText: states the epoch's text through its length, its final Z and what it parses back to, not as a literal string.
- WebhookUtils.ParseFormat: stated for years up to 9999 only. Later years print more than four digits and are rendered but not read back.
- JsonUtils.Beautify: `tabCount` is an unbounded integer; Java's 32-bit wrap after 2^31 nested brackets is not modelled.
- **Test scaffolding.** The repository's tests post to a live URL and only check that delivery does not throw. Only the empty-embed message is rebuilt as a scenario (`EmptyEmbedMessage`). The other scenarios use shorter messages in the same colour.
