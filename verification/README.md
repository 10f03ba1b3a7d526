# notifications_complication in Dafny

A model of the notification selection-and-sync pipeline of
notifications_complication, an Android phone app and Wear OS watch app that
show the phone's most relevant notification in a watch-face complication.

- On the phone, a notification listener picks the first ranked notification
  that passes a filter. It extracts a `NotificationInfo` record from it:
  key, post time, title, body, two PNG icon buffers and a colour. When the
  record's identity (key, post time) differs from what is published, or a
  refresh is forced, the listener publishes the protobuf encoding at
  `/current_notification` on the Wearable data layer.
- On the watch, a listener turns data-layer events on that path into a stored
  URI and a complication refresh. The complication service fetches and
  decodes the record and presents it as short text, long text or a small image.
- Around these sit small persisted stores: the enabled-package set, the
  extras of the current notification (with a printed form of its flag word),
  and the watch's URI slot. An earlier `.phone` package keeps a simpler
  selector and a record with nullable fields; it is modelled separately.

One Dafny module per source file:
- `Common`, `NotificationListener`, `FlagHelpers`, `NotificationDataStore`;
- `EnabledPackagesDataStore`, `CurrentNotificationUriDataStore`,
  `NotificationWearableListener`, `ComplicationDataSource`;
- `LegacyNotificationListener`, `LegacyNotificationDataStore`.

`Platform`, `Bits` and `Wrappers` hold the Android and Kotlin surface
those modules use:
- Kotlin `Int` is a 32-bit subset type, and bits are defined arithmetically.
- Exceptions are modelled as `Result` errors.
- The protobuf codec is an encoder/decoder pair. It is assumed to satisfy
  `Lawful`: decoding an encoding gives the record back, and an encoding is
  never empty.
- Drawing, PNG compression and bitmap decoding are function values passed in
  (`Graphics`).
- Media playback state, the data item at a URI and a URI's path are also
  function parameters.

Code that updates state becomes classes:
- the data layer's single item;
- the preference maps;
- the record file written by the serializers;
- an output stream.

Their methods are proved against specification functions (`PlanUpdate`,
`ExtrasEntries`, `AfterEnableAll`, `Launches`, …). The loops of
`flagsToString` (both copies), `setNotificationExtras`, `enableAll` and
`onDataChanged` keep their loop form. The printed flag text is tied by
proof to a reference definition that lists the set bits of the flag word.

Points where the model follows the code as written:
- The group-summary exemption compares the template with the literal
  `android.app.Notification$MessageStyle`. The platform records messaging
  notifications as `…$MessagingStyle`, so a messaging group summary is
  never selected (`NotificationListener.MessagingSummaryNeverSelected`).
- `flagsToString` loops while the remaining value is positive. Zero and
  every negative flag word print `<none>`.
- `fromBytes` lets decode failures escape. Only the serializers' `readFrom`
  turns a `SerializationException` into null.
- The earlier `toNotificationInfo` passes both `Icon`s to a non-nullable
  parameter, so a notification without a large icon throws
  `NullPointerException` there. A missing conversation title prints as
  `"null"`.

## Model

| member | source | states |
|---|---|---|
| Platform.FirstOrNull | phone/src/main/java/com/fuegofro/notifications_complication/NotificationListener.kt:100-101 | `firstOrNull`: null exactly when no element satisfies the predicate; otherwise an element at some index that satisfies it, with none before it satisfying it |
| Common.ToBytes | common/src/main/java/com/fuegofro/notifications_complication/common/NotificationInfo.kt:50-51 | under a lawful codec, the encoding is empty exactly for null (round trip in `Common.RoundTrip`) |
| Common.FromBytes | common/src/main/java/com/fuegofro/notifications_complication/common/NotificationInfo.kt:53-58 | null and the empty buffer give null; a non-empty buffer that decodes gives that record, and one that fails to decode gives the decoder's exception, uncaught (round trip in `Common.RoundTrip`) |
| Common.NullLaw | common/src/main/java/com/fuegofro/notifications_complication/common/NotificationInfo.kt:50-55 | null encodes to the empty buffer; null and the empty buffer both decode to null |
| Common.RoundTrip | common/src/main/java/com/fuegofro/notifications_complication/common/NotificationInfo.kt:50-58 | for a lawful codec, `fromBytes(toBytes(x)) == x` for every record and for null; only null encodes to the empty buffer |
| Common.FromBytesLetsDecodeFailuresThrough | common/src/main/java/com/fuegofro/notifications_complication/common/NotificationInfo.kt:53-58 | on a non-empty buffer, `fromBytes` throws whatever the decoder throws; nothing is caught |
| Common.ReadFrom | common/src/main/java/com/fuegofro/notifications_complication/common/NotificationInfo.kt:205-219 | empty input reads as null; a non-empty input that decodes reads as that record; a SerializationException reads as null; any other decoder exception escapes unchanged |
| Common.WriteTo | common/src/main/java/com/fuegofro/notifications_complication/common/NotificationInfo.kt:221-228 | appends nothing for null and the record's encoding otherwise |
| Common.SerializerRoundTrip | common/src/main/java/com/fuegofro/notifications_complication/common/NotificationInfo.kt:205-228 | what `writeTo` writes, `readFrom` reads back, null included |
| Common.FirstNonEmpty | common/src/main/java/com/fuegofro/notifications_complication/common/NotificationInfo.kt:119 | the empty buffer exactly when every buffer is empty; otherwise the buffer at the first index whose buffer is non-empty |
| Common.ByteArraysToBitmap | common/src/main/java/com/fuegofro/notifications_complication/common/NotificationInfo.kt:118-121 | decodes the buffer at the first index whose buffer is non-empty; when every buffer is empty, decodes the empty buffer |
| Common.FirstNonEmptyOfPair | common/src/main/java/com/fuegofro/notifications_complication/common/NotificationInfo.kt:118-121 | with two buffers, the first is chosen when it is non-empty and the second otherwise |
| Common.SmallIconBitmap | common/src/main/java/com/fuegofro/notifications_complication/common/NotificationInfo.kt:41 | decodes the small icon, or the large one when the small one is empty |
| Common.LargeIconBitmap | common/src/main/java/com/fuegofro/notifications_complication/common/NotificationInfo.kt:43 | decodes the large icon, or the small one when the large one is empty |
| Common.MatchesStatusBarNotification | common/src/main/java/com/fuegofro/notifications_complication/common/NotificationInfo.kt:123-127 | true iff both are null, or both are present with equal key and equal post time |
| Common.ScaledSizeAsWritten | common/src/main/java/com/fuegofro/notifications_complication/common/NotificationInfo.kt:79-101 | the size as written: 1x1 for a non-positive side, unchanged within 128 px, otherwise sides in [0, 128] |
| Common.ThinIconScalesToZeroHeight | common/src/main/java/com/fuegofro/notifications_complication/common/NotificationInfo.kt:91-100 | a 1000x1 drawable scales to 128x0 |
| Common.AsWrittenRasterThrowsOnThinDrawable | common/src/main/java/com/fuegofro/notifications_complication/common/NotificationInfo.kt:79-101 | as written, rasterising throws IllegalArgumentException exactly when a scaled side truncates to 0, which a 1000x1 drawable does; when it does not throw, it yields the same PNG as the corrected rasteriser |
| Common.RasterSize | common/src/main/java/com/fuegofro/notifications_complication/common/NotificationInfo.kt:79-101 | 1x1 for a non-positive side; unchanged when the larger side is at most 128; both sides always in [1, 128] and never larger than the intrinsic size; equal to the size as written whenever that has no zero side |
| Common.RasterSizeExamples | common/src/main/java/com/fuegofro/notifications_complication/common/NotificationInfo.kt:80-95 | 0x0 gives 1x1, 512x256 gives 128x64, 1000x1 gives 128x1 |
| Common.DrawableToBitmapByteArray | common/src/main/java/com/fuegofro/notifications_complication/common/NotificationInfo.kt:68-116 | the PNG of the drawable drawn at the corrected `RasterSize` of its intrinsic size (the as-written throw is the finding below) |
| Common.IconToBitmapByteArray | common/src/main/java/com/fuegofro/notifications_complication/common/NotificationInfo.kt:60-64 | the PNG of the loaded drawable, or the empty buffer for a null or unloadable icon |
| Common.IconBytesEmptyIffNoDrawable | common/src/main/java/com/fuegofro/notifications_complication/common/NotificationInfo.kt:60-64 | the icon buffer is empty exactly when the icon is null or does not load (PNG output is never empty) |
| Common.ToNotificationInfo | common/src/main/java/com/fuegofro/notifications_complication/common/NotificationInfo.kt:130-189 | the extracted record, or NoSuchElementException, as `Extract` defines with the corrected rasteriser |
| Common.ExtractKeepsIdentity | common/src/main/java/com/fuegofro/notifications_complication/common/NotificationInfo.kt:180-188 | key, post time and colour are copied, so the record matches its notification |
| Common.ExtractFailsOnlyWithoutMessages | common/src/main/java/com/fuegofro/notifications_complication/common/NotificationInfo.kt:150 | with the corrected rasteriser, extraction throws exactly for a messaging style with no messages, and then NoSuchElementException |
| Common.TitleAndBodyCascade | common/src/main/java/com/fuegofro/notifications_complication/common/NotificationInfo.kt:142-184 | the title and body rules (see below) |
| Common.LargeIconFallbackOnlyWhenEmpty | common/src/main/java/com/fuegofro/notifications_complication/common/NotificationInfo.kt:133-169 | the large-icon rules (see below) |
| Bits.AndBitsNonZero | phone/src/main/java/com/fuegofro/notifications_complication/NotificationListener.kt:210 | the low n bits of `a and b` are non-zero iff a and b share a set bit below n |
| NotificationListener.IsSetIffSharedBit | phone/src/main/java/com/fuegofro/notifications_complication/NotificationListener.kt:210-212 | `isSet` holds iff flags and mask share a set bit among the 32; `isNotSet` is its negation |
| NotificationListener.IsSetSingleFlag | phone/src/main/java/com/fuegofro/notifications_complication/NotificationListener.kt:210 | against a mask 2^k, `isSet` tests bit k |
| NotificationListener.FlagBits | phone/src/main/java/com/fuegofro/notifications_complication/NotificationListener.kt:113-116 | FLAG_NO_CLEAR tests bit 5 and FLAG_GROUP_SUMMARY tests bit 9 |
| NotificationListener.Select | phone/src/main/java/com/fuegofro/notifications_complication/NotificationListener.kt:100-123 | a selection is one of the active notifications and passes the filter (first-ness in `SelectionIsFirstEligible`) |
| NotificationListener.SelectionIsFirstEligible | phone/src/main/java/com/fuegofro/notifications_complication/NotificationListener.kt:100-123 | null iff no active notification passes the filter; the first one in ranking order that passes is the one selected |
| NotificationListener.SelectionObeysFilter | phone/src/main/java/com/fuegofro/notifications_complication/NotificationListener.kt:103-120 | the filter rules hold of any selection (see below) |
| NotificationListener.MessagingSummaryNeverSelected | phone/src/main/java/com/fuegofro/notifications_complication/NotificationListener.kt:113-114 | a group summary whose template is `…$MessagingStyle` fails the filter and is never selected |
| NotificationListener.MediaNotPlayingNeverSelected | phone/src/main/java/com/fuegofro/notifications_complication/NotificationListener.kt:116-120 | a MediaStyle notification passes only while playing, and passes (enabled, not a summary) regardless of FLAG_NO_CLEAR |
| NotificationListener.DataLayer.ReadFirstData | phone/src/main/java/com/fuegofro/notifications_complication/NotificationListener.kt:126-127 | when Play services answers, the data of the first item (null when there is none); otherwise an ApiException |
| NotificationListener.DataLayer.PutDataItem | phone/src/main/java/com/fuegofro/notifications_complication/NotificationListener.kt:139-146 | a successful put replaces the item; a failed one leaves it and reports an ApiException |
| NotificationListener.DoUpdateInner | phone/src/main/java/com/fuegofro/notifications_complication/NotificationListener.kt:89-153 | a failed data-item read escapes as an ApiException with the item untouched; the decode failure or extraction failure of `PlanUpdate` escapes with the item untouched; otherwise the item changes only on a publish with a successful put, to the payload at `/current_notification`, urgent; a failed put is swallowed |
| NotificationListener.PublishIffChangedOrForced | phone/src/main/java/com/fuegofro/notifications_complication/NotificationListener.kt:127-133 | when the stored payload decodes and the selection extracts, a publish happens iff the identity differs or the update is forced |
| NotificationListener.PublishedPayloadDecodesToSelection | phone/src/main/java/com/fuegofro/notifications_complication/NotificationListener.kt:135-146 | a published payload decodes to the record extracted from the selection, and is empty iff nothing is selected |
| NotificationListener.RepeatWithoutForceIsNoOp | phone/src/main/java/com/fuegofro/notifications_complication/NotificationListener.kt:130-133 | after a publish, running again over the same selection without force publishes nothing |
| NotificationListener.ForcedUpdatePublishes | phone/src/main/java/com/fuegofro/notifications_complication/NotificationListener.kt:130-133 | a forced update publishes even when identities match |
| NotificationListener.RepostIsPublished | phone/src/main/java/com/fuegofro/notifications_complication/NotificationListener.kt:130-131 | when the published record has the same key but a different post time, the selection is published as the new record; the only failure left is its own extraction failure |
| FlagHelpers.UShr1 | phone/src/main/java/com/fuegofro/notifications_complication/data/FlagHelpers.kt:31 | `ushr(1)` halves a non-negative value |
| FlagHelpers.UnknownName | phone/src/main/java/com/fuegofro/notifications_complication/data/FlagHelpers.kt:29 | the label for a bit beyond the name table is never empty |
| FlagHelpers.FlagsToString | phone/src/main/java/com/fuegofro/notifications_complication/data/FlagHelpers.kt:23-39 | the loop prints `FlagsText`: `<none>` when no entry was collected, else the entries joined by "\|" |
| FlagHelpers.EntriesFollowSetBits | phone/src/main/java/com/fuegofro/notifications_complication/data/FlagHelpers.kt:26-33 | for a value below 2^n, the collected entries are the labels of its set bits in increasing order |
| FlagHelpers.FlagsTextListsSetBits | phone/src/main/java/com/fuegofro/notifications_complication/data/FlagHelpers.kt:26-38 | for positive flags: one label per set bit, in increasing bit order, joined by "\|" |
| FlagHelpers.NonPositiveFlagsPrintNone | phone/src/main/java/com/fuegofro/notifications_complication/data/FlagHelpers.kt:27 | zero and every negative flag word print `<none>` |
| FlagHelpers.FlagsTextNonEmpty | phone/src/main/java/com/fuegofro/notifications_complication/data/FlagHelpers.kt:34-38 | the text is never empty when no name in the table is empty |
| FlagHelpers.SingleFlagPrintsItsName | phone/src/main/java/com/fuegofro/notifications_complication/data/FlagHelpers.kt:28-29 | a single bit k below 31 prints exactly its own label |
| FlagHelpers.GroupSummaryFlagText | phone/src/main/java/com/fuegofro/notifications_complication/data/FlagHelpers.kt:3-21 | 0x200 prints as FLAG_GROUP_SUMMARY with this file's table |
| NotificationDataStore.FlagNamesAgree | phone/src/main/java/com/fuegofro/notifications_complication/data/CurrentNotificationDataStore.kt:60-78 | this file's name table is the same as the one in FlagHelpers.kt |
| NotificationDataStore.FlagsToString | phone/src/main/java/com/fuegofro/notifications_complication/data/CurrentNotificationDataStore.kt:80-96 | this file's copy of the loop prints exactly what the FlagHelpers.kt copy prints, for every flag word and table |
| NotificationDataStore.Hex8RoundTrip | phone/src/main/java/com/fuegofro/notifications_complication/data/CurrentNotificationDataStore.kt:54-55 | FLAGS_HEX has eight digits that read back as the flags' 32-bit pattern |
| NotificationDataStore.ExtrasEntriesContents | phone/src/main/java/com/fuegofro/notifications_complication/data/CurrentNotificationDataStore.kt:42-55 | null leaves an empty map; otherwise the keys are the extras keys plus FLAGS and FLAGS_HEX, those two override extras of the same name, and each other key holds its extra's string form |
| NotificationDataStore.CurrentNotificationDataStore.SetNotificationInfo | phone/src/main/java/com/fuegofro/notifications_complication/data/CurrentNotificationDataStore.kt:30-32 | stores the serializer's bytes for the record; for a lawful codec it then reads back as given, null included |
| NotificationDataStore.CurrentNotificationDataStore.CurrentNotificationExtras | phone/src/main/java/com/fuegofro/notifications_complication/data/CurrentNotificationDataStore.kt:34-38 | exactly the stored keys, each mapped to its stored string |
| NotificationDataStore.CurrentNotificationDataStore.SetNotificationExtras | phone/src/main/java/com/fuegofro/notifications_complication/data/CurrentNotificationDataStore.kt:40-57 | the extras map afterwards is `ExtrasEntries(notification)`, independent of what was stored before |
| EnabledPackagesDataStore.SetPackageEnabledLaws | phone/src/main/java/com/fuegofro/notifications_complication/data/EnabledPackagesDataStore.kt:27-36 | the package is a member iff enabled; every other entry is unchanged; repeating the call changes nothing |
| EnabledPackagesDataStore.EnableAllIsUnion | phone/src/main/java/com/fuegofro/notifications_complication/data/EnabledPackagesDataStore.kt:37-43 | the keys afterwards are the old keys plus the names; each name maps to true; other entries are unchanged |
| EnabledPackagesDataStore.EnabledPackagesDataStore.EnabledPackages | phone/src/main/java/com/fuegofro/notifications_complication/data/EnabledPackagesDataStore.kt:21-25 | exactly the stored key names |
| EnabledPackagesDataStore.EnabledPackagesDataStore.SetPackageEnabled | phone/src/main/java/com/fuegofro/notifications_complication/data/EnabledPackagesDataStore.kt:27-36 | enabled set grows by the package when enabling and loses it when disabling |
| EnabledPackagesDataStore.EnabledPackagesDataStore.EnableAll | phone/src/main/java/com/fuegofro/notifications_complication/data/EnabledPackagesDataStore.kt:37-43 | the enabled set becomes the old set together with the names |
| EnabledPackagesDataStore.EnabledPackagesDataStore.DisableAll | phone/src/main/java/com/fuegofro/notifications_complication/data/EnabledPackagesDataStore.kt:45-47 | the enabled set becomes empty |
| CurrentNotificationUriDataStore.UriIn | wear/src/main/java/com/fuegofro/notifications_complication/CurrentNotificationUriDataStore.kt:19-21 | null exactly when the key is missing |
| CurrentNotificationUriDataStore.SetUriLaws | wear/src/main/java/com/fuegofro/notifications_complication/CurrentNotificationUriDataStore.kt:14-31 | `getUri` returns what `setUri` stored, null included; only URI_KEY changes; of two writes the later one decides |
| CurrentNotificationUriDataStore.CurrentNotificationUriDataStore.SetUri | wear/src/main/java/com/fuegofro/notifications_complication/CurrentNotificationUriDataStore.kt:23-31 | null removes the key; a URI stores its string form; `getUri` then returns the argument |
| NotificationWearableListener.Launches | wear/src/main/java/com/fuegofro/notifications_complication/NotificationWearableListenerService.kt:28-55 | at most one launch per event on the path, exactly one each when the walk does not throw; the only exception is AssertionError (contents in `LaunchesOnePerEventOnPath` and `UnknownTypeThrows`) |
| NotificationWearableListener.LaunchesOnePerEventOnPath | wear/src/main/java/com/fuegofro/notifications_complication/NotificationWearableListenerService.kt:28-55 | with only changed/deleted events on the path: nothing is thrown, events on other paths launch nothing, and each event on the path launches one task carrying its URI (changed) or null (deleted), in event order |
| NotificationWearableListener.UnknownTypeThrows | wear/src/main/java/com/fuegofro/notifications_complication/NotificationWearableListenerService.kt:43-46 | an event of another type on the path throws AssertionError, after at most the launches of the events before it |
| NotificationWearableListener.OnDataChanged | wear/src/main/java/com/fuegofro/notifications_complication/NotificationWearableListenerService.kt:24-56 | the walk over the buffer launches exactly the tasks of `Launches` and ends as it says |
| NotificationWearableListener.UpdateRequester.RequestUpdateAll | wear/src/main/java/com/fuegofro/notifications_complication/NotificationWearableListenerService.kt:52 | a refresh reads the URI stored at that moment |
| NotificationWearableListener.RunLaunched | wear/src/main/java/com/fuegofro/notifications_complication/NotificationWearableListenerService.kt:49-54 | one task stores the URI and then requests a refresh, so the refresh reads exactly the new URI; no other preference changes |
| ComplicationDataSource.GetPreviewData | wear/src/main/java/com/fuegofro/notifications_complication/NotificationComplicationDataSourceService.kt:26-51 | SHORT_TEXT gives short text "Title…", LONG_TEXT long text "Notification body…" titled "Title…", SMALL_IMAGE a small image, each with the placeholder image; an AssertionError exactly for other types |
| ComplicationDataSource.FetchCurrent | wear/src/main/java/com/fuegofro/notifications_complication/NotificationComplicationDataSourceService.kt:56-59 | no stored URI gives no record; a failed `getDataItem` call escapes with its exception (an ApiException); a URI without a data item throws NullPointerException; otherwise the item's data goes through `fromBytes` |
| ComplicationDataSource.Present | wear/src/main/java/com/fuegofro/notifications_complication/NotificationComplicationDataSourceService.kt:67-119 | AssertionError exactly for an unsupported type; SHORT_TEXT and LONG_TEXT give their own shapes (contents in `NoRecordPresentation` and `RecordPresentation`; SHORT_TEXT needs a seven-character title, see "## Left out") |
| ComplicationDataSource.OnComplicationRequest | wear/src/main/java/com/fuegofro/notifications_complication/NotificationComplicationDataSourceService.kt:53-121 | fails exactly when fetching fails (with that exception) or the type is unsupported (contents in `RequestPresentsFetchedRecord`; SHORT_TEXT needs a seven-character title, see "## Left out") |
| ComplicationDataSource.NoRecordPresentation | wear/src/main/java/com/fuegofro/notifications_complication/NotificationComplicationDataSourceService.kt:67-119 | with no record: "None", "No notifications", or the placeholder with "No notifications"; unknown types throw |
| ComplicationDataSource.RecordPresentation | wear/src/main/java/com/fuegofro/notifications_complication/NotificationComplicationDataSourceService.kt:67-115 | with a record: SHORT_TEXT shows the first 7 title characters and the small icon (falling back to the large one); LONG_TEXT shows body, title and the large icon (falling back to the small one); SMALL_IMAGE shows the large icon (falling back to the small one) when it decodes, and the placeholder otherwise |
| ComplicationDataSource.RequestPresentsFetchedRecord | wear/src/main/java/com/fuegofro/notifications_complication/NotificationComplicationDataSourceService.kt:53-121 | a stored URI whose item holds an encoded record presents that record; no stored URI presents the empty state |
| LegacyNotificationDataStore.GettersHaveNoFallback | phone/src/main/java/com/fuegofro/notifications_complication/phone/data/CurrentNotificationDataStore.kt:59-63 | a null buffer gives a null bitmap, and each getter ignores the other icon |
| LegacyNotificationDataStore.RasterSizeAgainstCappedSize | phone/src/main/java/com/fuegofro/notifications_complication/phone/data/CurrentNotificationDataStore.kt:80-93 | sides always positive; agrees with the capped size within 128 px; exceeds 128 px beyond it (no cap) |
| LegacyNotificationDataStore.IconToBitmapByteArray | phone/src/main/java/com/fuegofro/notifications_complication/phone/data/CurrentNotificationDataStore.kt:67-108 | a null Icon throws NullPointerException, an unloadable one gives null, otherwise the PNG at intrinsic size |
| LegacyNotificationDataStore.IconBytesOutcomes | phone/src/main/java/com/fuegofro/notifications_complication/phone/data/CurrentNotificationDataStore.kt:67-108 | a loadable icon gives a non-empty buffer; an unloadable one gives null |
| LegacyNotificationDataStore.MatchesStatusBarNotification | phone/src/main/java/com/fuegofro/notifications_complication/phone/data/CurrentNotificationDataStore.kt:110-114 | true iff both are null, or both are present with equal key and post time |
| LegacyNotificationDataStore.ToNotificationInfo | phone/src/main/java/com/fuegofro/notifications_complication/phone/data/CurrentNotificationDataStore.kt:116-145 | the earlier record or exception, as `Extract` defines |
| LegacyNotificationDataStore.ExtractKeepsIdentity | phone/src/main/java/com/fuegofro/notifications_complication/phone/data/CurrentNotificationDataStore.kt:136-144 | key, post time and colour are copied, so the record matches its notification |
| LegacyNotificationDataStore.TitleAndTextCascade | phone/src/main/java/com/fuegofro/notifications_complication/phone/data/CurrentNotificationDataStore.kt:118-135 | a non-null last message gives (conversation title or "null", "name: " + text); otherwise the EXTRA_TITLE and EXTRA_TEXT strings, possibly null |
| LegacyNotificationDataStore.ExtractNeedsBothIcons | phone/src/main/java/com/fuegofro/notifications_complication/phone/data/CurrentNotificationDataStore.kt:141-142 | a null small or large Icon makes extraction throw NullPointerException; otherwise each icon keeps its own buffer |
| LegacyNotificationDataStore.ReadFrom | phone/src/main/java/com/fuegofro/notifications_complication/phone/data/CurrentNotificationDataStore.kt:153-167 | empty input reads as null; a non-empty input that decodes reads as that record; a SerializationException reads as null; any other decoder exception escapes unchanged |
| LegacyNotificationDataStore.WriteTo | phone/src/main/java/com/fuegofro/notifications_complication/phone/data/CurrentNotificationDataStore.kt:169-176 | writes nothing for null and the encoding otherwise |
| LegacyNotificationDataStore.SerializerRoundTrip | phone/src/main/java/com/fuegofro/notifications_complication/phone/data/CurrentNotificationDataStore.kt:153-176 | what `writeTo` writes, `readFrom` reads back, null included |
| LegacyNotificationDataStore.CurrentNotificationDataStore.SetNotification | phone/src/main/java/com/fuegofro/notifications_complication/phone/data/CurrentNotificationDataStore.kt:39-41 | stores the serializer's bytes; for a lawful codec the record then reads back as given |
| LegacyNotificationListener.Select | phone/src/main/java/com/fuegofro/notifications_complication/phone/NotificationListener.kt:55-59 | a selection is one of the active notifications and its package is enabled (first-ness in `SelectionIsFirstEnabled`) |
| LegacyNotificationListener.SelectionIsFirstEnabled | phone/src/main/java/com/fuegofro/notifications_complication/phone/NotificationListener.kt:55-59 | null iff no notification's package is enabled; otherwise the first enabled one in ranking order |
| LegacyNotificationListener.DoUpdateInner | phone/src/main/java/com/fuegofro/notifications_complication/phone/NotificationListener.kt:44-71 | a store read failure or extraction failure escapes with the file untouched; otherwise the file changes only when `PlanUpdate` stores, to that record's bytes |
| LegacyNotificationListener.WriteIffMismatch | phone/src/main/java/com/fuegofro/notifications_complication/phone/NotificationListener.kt:63-68 | when extraction succeeds, a write happens iff the stored record does not match the selection, and it writes the extracted record or null |
| LegacyNotificationListener.StoredSelectionIsNotRewritten | phone/src/main/java/com/fuegofro/notifications_complication/phone/NotificationListener.kt:63-67 | with no force path, the same selection never causes a second write once stored |

The longer rows:
- Common.TitleAndBodyCascade: a messaging style with a last message and a
  conversation title gives (conversation title, "name: " + text). The prefix
  is present only when the sender's name is known. Otherwise the title and
  body are the EXTRA_TITLE and EXTRA_TEXT char sequences, and an absent one
  becomes "".
- Common.LargeIconFallbackOnlyWhenEmpty: the small icon is the tinted small
  icon. A non-empty large icon is kept. An empty one is replaced by the
  messaging user's icon, or by the big picture when the extras hold one. It
  stays empty for a big-picture style without a picture and for other styles.
- NotificationListener.SelectionObeysFilter: the selection's package is
  enabled. It is not inbox style. If it is a group summary, its template is
  the MessageStyle literal. If it is no-clear, its template is MediaStyle. If
  its template is MediaStyle, its session token is present and playing.

## Findings

| source | as written | input that shows it | evidently intended | confidence | as-written member | corrected member |
|---|---|---|---|---|---|---|
| common/src/main/java/com/fuegofro/notifications_complication/common/NotificationInfo.kt:91-100 | each scaled side is truncated by `toInt()` and can reach 0, which `Bitmap.createBitmap` rejects | a drawable of intrinsic size 1000x1 scales to 128x0 | every side of the bitmap is at least one pixel, as the 1x1 fallback for degenerate sizes suggests | not executed | Common.AsWrittenRasterThrowsOnThinDrawable | Common.RasterSize |

## Left out

- Common.ScaledSizeAsWritten: the Float scaling is modelled as integer arithmetic (`side * 128 / largest`, truncated). Only the bounds are claimed; a size can differ from the Float result by a pixel.
- Common.RasterSize: the same integer abstraction, with each scaled side clamped to at least one pixel; `DrawableToBitmapByteArray` uses it, so the modelled rasteriser never requests a zero-sized bitmap.
- Common.DrawableToBitmapByteArray: follows the corrected size. As written, the code throws IllegalArgumentException from `Bitmap.createBitmap` for a drawable whose scaled side truncates to 0. That behaviour is `Common.RasterBytesAsWritten`, which the pipeline does not call.
- Common.ToNotificationInfo: uses the corrected rasteriser. As written, a small icon, large icon, user icon or big picture that scales to a zero side makes `toNotificationInfo` throw IllegalArgumentException, and this model returns a record instead.
- Common.ExtractFailsOnlyWithoutMessages: "exactly" holds of the corrected pipeline. As written, extraction also throws IllegalArgumentException for an icon or picture whose scaled side truncates to 0.
- NotificationListener.DoUpdateInner: inherits the corrected rasteriser. As written, the IllegalArgumentException above escapes `doUpdateInner` and nothing is published; this model publishes the record.
- ComplicationDataSource.Present: SHORT_TEXT requires a title of at least seven characters instead of modelling the StringIndexOutOfBoundsException that `subSequence(0, 7)` throws for a shorter one; characters are counted as Dafny characters, not UTF-16 units.
- ComplicationDataSource.OnComplicationRequest: carries the same seven-character requirement on the fetched record.
- FlagHelpers.FlagsTextNonEmpty: requires every name in the table to be non-empty (true of both tables in the code); with an empty name the printed text can be empty.
- Protobuf wire format: the codec is an abstract encoder/decoder pair with the round-trip law; no bytes of the encoding are modelled.
- Drawing, PNG compression, `BitmapFactory.decodeByteArray`, `Icon.loadDrawable` and tinting: foreign platform code, passed in as `Graphics` or reduced to the size and tint they record.
- `BitmapDrawable` density scaling: the big picture's drawable has the bitmap's own size.
- `getActiveNotifications(rankingMap.orderedKeys)`: the active list is an input already in ranking order.
- `MediaController(token).playbackState` and the SDK-version branches of `getParcelable`: the playback state is a function parameter of the token.
- Coroutines: `lifecycleScope.launch`, `CoroutineScope.launch`, `await` and the order in which launched tasks run are not modelled. An exception escaping `doUpdateInner` is returned as an error rather than crashing the process. No ordering across the watch's per-event tasks is claimed.
- `connectedFlow`, `onListenerConnected`/`onListenerDisconnected`, `onBind` and `forceRefresh`'s wait for the connection: lifecycle plumbing. Every listener callback is `DoUpdateInner` with `forceUpdate` false, and `forceRefresh` is the same with true.
- `getAllNotificationInfos` (debug listing of all notifications and their extras): diagnostics only.
- DataStore flows, caching, the skip of an update whose value equals the current one, and edit atomicity: each store is a field updated in place.
- Data-item buffers: only the first data item is read, modelled as the single item of `DataLayer`; `release()` and the request builder are not modelled.
- `Uri.parse`/`toString` and `Uri.path`: a URI is its string form, and its path is a function parameter.
- Complication builders, `toIcon`, `toMonochromaticImage`, `toSmallImage`: reduced to the text, content description and bitmap they carry.
- The earlier record's `toString` and the earlier listener's `logString`, and all logging: diagnostics only.
- Compose UI, both MainActivity files, PackageSettings and the build files are not part of this model.
