# Barcode label bot: a verified model of its lookup, labelling and routing logic

The repository is a WhatsApp bot for a shop. A customer sends a PLU or a barcode. The bot
looks the product up in its catalog, then replies with a picture label. The label holds the
product photo, the product name, a barcode drawn by bwip-js and the price, composited with
sharp. Two chat commands extend this:

- `.plu a b c` looks several codes up at once;
- `.bulk <qty> [code]` makes a label carrying a quantity.

The same labelling logic is copied, with its own constants and quirks, into:

- the current bot (`bot.js`);
- the older database bot (`bot-db-old.js`);
- the shared library (`lib/core.js`);
- six scripts that render labels from the catalog sheet.

This project models that logic in Dafny and proves what each copy does.

**Shared modules**

- `Js`: the JavaScript operations the code relies on: truthiness and `||`, `String()`,
  `trim`, `substring`, `split(/\s+/)`, `replace(/\D/g, '')` and `parseInt`.
- `Escape`: the three-entity and five-entity `esc` helpers.
- `Externals`, `Raster`: the images, the encoder, the network and sharp's decoder and
  resizer, which stay uninterpreted.
- `Layout`: stacked sections and N-copy replication.
- `Barcode`: code and symbology choice, and the `bcid:code` barcode cache.
- `Catalog`: the catalog and its PLU → barcode → digits lookup.
- `Resolver`: the 2000-entry insertion-ordered product cache.
- `Chat`: command parsing and reply text.
- `Label`: the 540-wide label bands and stacks.

**One module per source file**

- `BotJs` (`bot.js`)
- `BotDbOld` (`bot-db-old.js`)
- `LibCore` (`lib/core.js`)
- `TestBulk`, `TestBulkNew`, `TestWithImages`, `TestPlu`, `TestRealData`, `GenerateSamples`

Where the source keeps state, the model keeps a class:

- the module-level `Map`s `productCache`, `barcodeCache` and `lastProductByChat`;
- each method is proved equal to a specification function over the old state;
- the properties are lemmas about those functions.

An image is a record: its width, its height and what it holds, such as a flat colour, decoded
bytes, escaped text lines, a resampled copy or layers on a canvas. A label is proved to hold
exactly the layers the source composites, at the offsets the source computes.

## Model

| member | source | states |
|---|---|---|
| `Js.TrimStart` | bot.js:66 | no longer than the input, every character it drops from the front is whitespace, and it does not start with whitespace |
| `Js.TrimEnd` | bot.js:66 | every character it drops from the end is whitespace, and it does not end with whitespace |
| `Js.Trim` | bot.js:66 | `String.prototype.trim`: a contiguous piece of the input with only whitespace cut from either side, and neither of its ends is whitespace |
| `Js.TrimEmptyIffAllSpace` | bot.js:66-67 | the trimmed key is empty exactly when the query is all whitespace |
| `Js.TrimIdempotent` | bot.js:509 | trimming twice is trimming once |
| `Js.DigitsOnly` | bot.js:84 | `replace(/\D/g, '')` keeps only digits; it equals its input iff the input is all digits, and is empty iff the input has no digit |
| `Js.Truncate` | bot.js:212 | `s.length > n ? s.substring(0, n) : s` gives a prefix of length `min(|s|, n)`, the whole string when it is short enough |
| `Js.SubstringIsTruncate` | test-real-data.js:66 | `substring(0, n)` is that same prefix |
| `Js.SplitWs` | bot.js:513 | `split(/\s+/)` gives at least one piece, and no piece holds whitespace |
| `Js.SplitWsKeepsText` | bot.js:513 | the pieces, concatenated, are the input with its whitespace removed |
| `Js.SplitWsOfJoin` | bot.js:513 | splitting words joined by single spaces gives the words back |
| `Js.LeadingDigits` | bot.js:538 | the longest all-digit prefix of the input |
| `Js.NatToString` | bot.js:393 | the decimal numeral of a natural number: non-empty, digits only |
| `Js.DecimalValueOfNatToString` | bot.js:393 | reading a numeral back gives the number |
| `Js.TrailingDigits` | generate-samples.js:103 | the digit run at the end of a string is no longer than the string |
| `Js.TrailingDigitsStop` | generate-samples.js:103 | a digit run after a non-digit is exactly the trailing digits |
| `Js.ParseIntOfDigits` | bot.js:538 | `parseInt(d, 10)` of a digit string is its decimal value |
| `Js.ParseIntOfNegated` | bot.js:538 | `parseInt('-' + d, 10)` is minus that value |
| `Js.ParseIntOfIntToString` | bot.js:538 | `parseInt` of any integer's numeral gives the integer back |
| `Js.IntToStringIsWord` | bot.js:537 | an integer's numeral is one non-empty whitespace-free word |
| `Escape.EscapeChain3IsPerChar` | bot.js:113-115 | the chain of three `replace` calls equals escaping each character on its own |
| `Escape.EscapeChain5IsPerChar` | lib/core.js:148 | the same for the five-replace chain, with `&` replaced first |
| `Escape.EscapeEach3Safe` | bot.js:113-115 | escaped text has no `<` or `>`, and every `&` starts `&amp;`, `&lt;` or `&gt;` |
| `Escape.EscapeEach5Safe` | lib/core.js:148 | escaped text has none of `< > " '`, and every `&` starts one of the five entities |
| `Escape.DecodeEscapeEach3` | bot.js:113-115 | decoding the entities gives the original text back |
| `Escape.DecodeEscapeEach5` | lib/core.js:148 | decoding the entities gives the original text back |
| `Escape.Esc3` | bot.js:113-115 | `esc(s)` is markup-safe, reads back as the value's text (empty for a falsy value), and is empty for a falsy input |
| `Escape.Esc5` | lib/core.js:148 | `escapeXml(s)` is markup-safe, reads back as the value's text (empty for a falsy value), and is empty for a falsy input |
| `Escape.Esc5Unguarded` | test-bulk.js:7-14 | `String(s)` with no falsy guard: safe, reads back as `String(s)`, so `undefined` becomes the text `undefined` |
| `Escape.PlainTextUnchanged5` | lib/core.js:148 | text without special characters passes through unchanged |
| `Escape.EscapeUndefined` | test-bulk.js:8 | the text `undefined` passes through the five replaces unchanged |
| `Escape.Esc3KeepsQuotes` | bot.js:113-115 | the three-entity escape leaves every text without `&`, `<` or `>` unchanged, so quotes pass through as they are |
| `Raster.AcquirePhoto` | bot.js:162-208 | the photo is w×h; it is the grey placeholder exactly when the URL is blank, the fetch fails, the status is not OK or the body does not decode; otherwise it is the decoded photo resampled |
| `Raster.ResizeToWidth` | bot.js:222-225 | with `withoutEnlargement` the width is `min(width, w)` and a narrow image is kept; without it the width is `w` |
| `Raster.JsRoundHalf` | bot.js:239 | `Math.round(n / 2)` of an integer is `(n + 1) / 2` in floor division |
| `Raster.Centre` | bot.js:241 | the centring offset leaves margins that differ by at most one pixel |
| `Raster.CentreFits` | bot.js:241 | a centred object no larger than its space lies inside it |
| `Raster.ClampedTop` | bot.js:239-240 | `max(5, min(200-bh-5, (200-bh)/2))` rounded: at least 5, centred while bh ≤ 190, else 5, and inside the section iff bh ≤ 195 |
| `Raster.CoreTop` | lib/core.js:129 | `max(5, round((200-bh)/2))`: at least 5, the centred offset or 5 |
| `Raster.ClampedTopIsCoreTop` | lib/core.js:129 | both top formulas give the same offset for every barcode height |
| `Raster.CoreLeft` | lib/core.js:128 | `max(0, round((540-bw)/2))`: never negative, and centred for a barcode no wider than the label |
| `Layout.StackOrdered` | bot.js:274-279 | every section of a stack ends before each later section starts (their gaps included), and within the stack |
| `Layout.LastEndsAtExtent` | bot.js:274-279 | the last section ends where the stack does |
| `Layout.StackLayers` | bot.js:274-279 | each band is composited at its own section's top |
| `Layout.Compose` | bot.js:274-279 | the canvas is as high as its sections plus the trailing margin |
| `Layout.PlacedInsideSection` | bot.js:274-279 | a band no taller than its section stays clear of every other section |
| `Layout.Shift` | bot-db-old.js:219-224 | every layer moves down by the same amount |
| `Layout.ReplicatedLength` | bot-db-old.js:219-224 | N copies of a u-layer label give exactly N·u composites |
| `Layout.ReplicatedCopy` | bot-db-old.js:219-224 | composite `i·u + k` is layer k of the label moved down by `i·labelHeight` |
| `Layout.ReplicatedInBand` | bot-db-old.js:219-224 | copy i lies inside the band `[i·L, (i+1)·L)` and within the canvas of N·L |
| `Layout.ReplicateLabel` | test-bulk.js:107-114 | the `for (i < qty)` push loop builds exactly the replicated list |
| `Barcode.ChooseBcid` | bot.js:127-130 | `ean13` iff 13 digits, `upca` iff 12 digits, `code128` otherwise, the empty code included |
| `Barcode.CodeToRender` | bot.js:119-124 | the barcode when it has a non-space character, else the PLU, else `N/A`; never empty |
| `Barcode.CacheKeyInjective` | bot.js:132 | two requests share a `bcid:code` key only when symbology and code agree |
| `Barcode.CachedEncodeHit` | bot.js:132-151 | a hit returns the stored barcode and touches neither the cache nor the encoder |
| `Barcode.CachedEncodeMiss` | bot.js:132-151 | a miss runs the encoder; a failure stores nothing, and a success stores the barcode under its key |
| `Barcode.CachedEncodeTransparent` | bot.js:132-151 | through a coherent cache the outcome is the encoder's own, and the cache stays coherent |
| `Barcode.CachedEncodeOnce` | bot.js:132-151 | after a success the same request never reaches the encoder again |
| `Barcode.BarcodeCache.constructor` | bot.js:61 | the cache starts empty |
| `Barcode.BarcodeCache.Render` | bot.js:132-151 | the in-place get / encode / set equals the cached-encode specification |
| `Catalog.FirstMatch` | bot-db-old.js:63-81 | the first row in table order that matches, or none when no row does |
| `Catalog.ResolveByPlu` | bot.js:82-84 | with unique PLUs, a PLU match is always the answer |
| `Catalog.ResolveByBarcode` | bot.js:85-86 | without a PLU match, the first row with that barcode is the answer |
| `Catalog.ResolveSound` | bot.js:82-93 | a found product is a catalog row carrying the key, or its digits, as PLU or barcode |
| `Catalog.ResolveNoneIff` | bot.js:82-93 | nothing is found iff no row carries the key, and the digits retry is skipped or finds nothing too |
| `Catalog.DigitRetryAgrees` | bot.js:87-92 | a formatted code finds what its digits find when the rows carrying those digits are one record |
| `Catalog.DigitRetryCanDisagree` | bot.js:87-92 | for a concrete two-row catalog, the retry takes the first row matching either column, where the digits alone find the PLU match |
| `Catalog.ResolveRaw` | bot-db-old.js:63-81 | the old lookup: an exact PLU or barcode match on the raw query, and none on a database error |
| `Catalog.DisplayName` | bot.js:121 | `productName` when truthy, else `nama`, else `Nama Tidak Tersedia`; never empty |
| `Catalog.SheetName` | test-bulk-new.js:24 | `nama` when truthy, else a fixed non-empty fallback |
| `Catalog.GambarUrl` | bot.js:164 | `gambar` when truthy, else the empty URL |
| `Catalog.PriceOrDash` | bot.js:122 | the price, or `-` when falsy: always truthy |
| `Catalog.ShownPriceCases` | bot.js:249 | `Rp 0,-` is shown exactly when the price is falsy, `-` or `Rp 0,-`; otherwise the price itself |
| `Resolver.Get` | bot.js:70 | `map.get`: some value exactly when an entry has the key |
| `Resolver.Without` | bot.js:73 | `map.delete` never makes the cache longer |
| `Resolver.GetWithout` | bot.js:73 | after a delete the key is gone, and every other key reads as before |
| `Resolver.WithoutKeys` | bot.js:73 | a delete keeps keys distinct and removes exactly one entry for a present key |
| `Resolver.GetEvict` | bot.js:100-103 | dropping the oldest entry forgets its key only |
| `Resolver.TouchKeeps` | bot.js:70-78 | a hit keeps every key's value and the size, and makes the key the newest |
| `Resolver.AdmitKeeps` | bot.js:97-104 | an insert makes the key newest; past 2000 the oldest key is evicted; the size stays ≤ 2000 and keys stay distinct |
| `Resolver.LookupStepValid` | bot.js:64-111 | every lookup keeps keys distinct and the size within 2000 |
| `Resolver.LookupStepHit` | bot.js:70-78 | a hit returns the cached product, keeps every entry and moves the key to newest |
| `Resolver.LookupStepInsert` | bot.js:97-104 | a found product becomes the newest entry; the oldest is forgotten only when the cache was full |
| `Resolver.LookupStepMissKeeps` | bot.js:106-110 | a lookup that finds nothing, or a database error, leaves the cache unchanged |
| `Resolver.LookupStepTransparent` | bot.js:64-111 | through a coherent cache the lookup returns what the catalog gives for the trimmed key (null for an empty key), and the cache stays coherent |
| `Resolver.ProductResolver.constructor` | bot.js:16 | the product cache starts empty |
| `Resolver.ProductResolver.FindProductLocally` | bot.js:64-111 | the in-place lookup equals the lookup specification and keeps the cache valid |
| `Chat.PluWords` | bot.js:513 | the words after `.plu`: the first is empty iff only whitespace follows, and otherwise all are non-empty words making up the text |
| `Chat.BulkArguments` | bot.js:537 | `split(/\s+/).slice(1)` of a trimmed message gives non-empty words |
| `Chat.PluCommand` | bot.js:513-517 | the usage reply iff nothing follows `.plu`, else a search for its words |
| `Chat.BulkCommand` | bot.js:537-543 | a bulk request only for a parsed quantity within 1..100, with the optional code a non-empty word |
| `Chat.ParseCommand` | bot.js:509-576 | `.plu` wins over `.bulk` (case-insensitive), and anything else is a lookup of the trimmed message |
| `Chat.ParsePluOfJoin` | bot.js:512-531 | `.plu` followed by words asks for exactly those words, in order |
| `Chat.ParsePluOfWords` | bot.js:512-531 | a trimmed `.plu` message with words after it asks for those words |
| `Chat.ParsePluAlone` | bot.js:514-517 | `.plu` with only whitespace after it is the usage case |
| `Chat.BulkMessage` | bot.js:537 | `.bulk <qty> [code]` splits back into its arguments |
| `Chat.BulkCommandOfArguments` | bot.js:537-550 | the bulk branch accepts exactly quantities 1..100 and takes the first code word |
| `Chat.ParseBulkOfJoin` | bot.js:536-550 | `.bulk <qty> [code]` is a bulk request iff 1 ≤ qty ≤ 100, else the usage reply |
| `Chat.LinesOfJoin` | bot.js:531 | `join('\n')` of lines without newlines reads back as those lines |
| `Chat.PluResultLineShape` | bot.js:526-528 | each result line names its word, and starts with ✅ iff found and with ❌ iff not |
| `Chat.SearchReplyLines` | bot.js:531 | the search reply is its header, a blank line, then exactly the result lines |
| `Label.QtyBandInjective` | bot.js:393-405 | different quantities give different `Qty: N` bands |
| `Label.NameBand5` | lib/core.js:121-123 | the name band shows the name cut to 40 characters, five-entity escaped |
| `Label.PriceBand5` | lib/core.js:134-136 | the price band shows the price, five-entity escaped |
| `Label.ClampedBarcodeLayer` | bot.js:237-246 | top ≥ 5, centred while bh ≤ 190, inside its band iff bh ≤ 195; left centred to within a pixel |
| `Label.CoreBarcodeLayer` | lib/core.js:128-131 | lib/core.js's placement is never negative, and equals the clamped one for a barcode no wider than the label |
| `Label.ClampedBarcodeBand` | test-bulk-new.js:99-119 | a 540×200 band holding the barcode resized to at most w, inside the band's width |
| `Label.PhotoBand` | bot.js:162-208 | 540×300, the placeholder exactly when the photo step fails |
| `Label.StackedLabel` | bot.js:274-279 | each band at left 0 and at its section's top, on a canvas as high as the sections |
| `Label.BotSectionsLayout` | bot.js:154-159 | tops 0/300/390/590, a 10-pixel gap after the name, and the price ends the 670 canvas |
| `Label.CoreSectionsLayout` | lib/core.js:95-100 | tops 0/300/380/590, and the barcode band ends at 580, 10 above the price |
| `Label.BulkSectionsLayout` | bot.js:312-318 | contiguous tops 0/300/380/580/640, the last band ending at 720 |
| `Label.BotStack` | bot.js:274-279 | the 540×670 composite with bands at 0, 300, 390 and 590 |
| `Label.CoreStack` | lib/core.js:138-143 | the 540×670 composite with bands at 0, 300, 380 and 590 |
| `Label.BulkStack` | bot.js:432-438 | the 540×730 composite with bands at 0, 300, 380, 580 and 640 |
| `BotJs.NameBand` | bot.js:212-219 | shows the display name cut to 40 characters, three-entity escaped |
| `BotJs.PriceBand` | bot.js:249 | shows the shown price, three-entity escaped |
| `BotJs.BarcodeBandOf` | bot.js:222-246 | the barcode resized to at most 460 wide, top ≥ 5, inside the band's width, and inside its height iff ≤ 195 high |
| `BotJs.SingleLabel` | bot.js:274-279 | photo, name, barcode and price at 0, 300, 390 and 590 on 540×670 |
| `BotJs.BulkLabel` | bot.js:432-438 | photo, name, barcode, quantity and price at 0, 300, 380, 580 and 640 on 540×730 |
| `BotJs.LabelBands` | bot.js:162-249 | the placeholder iff the photo fails; the name is a ≤ 40-character prefix of the display name; the price is `Rp 0,-` iff falsy, `-` or `Rp 0,-` |
| `BotJs.CreateBarcodeImageCases` | bot.js:118-282 | a cached code is not re-encoded; an encoder error becomes `Barcode error: <message>` and stores nothing; a success stores the barcode and gives the 540×670 label |
| `BotJs.GenerateBulkImageCases` | bot.js:285-443 | qty outside 1..200 throws `qty invalid` before the cache; otherwise the cached encode decides; a label is 540×730 with the `Qty` band |
| `BotJs.SearchSpec` | bot.js:522-530 | one result line per word |
| `BotJs.WordLookupTransparent` | bot.js:522-524 | a `.plu` word is its own trimmed key, so it finds what the catalog has for it |
| `BotJs.SearchTransparent` | bot.js:522-530 | through a coherent cache, line k is the catalog's answer for word k, in order |
| `BotJs.SearchValid` | bot.js:522-530 | the `.plu` lookups keep the product cache valid |
| `BotJs.HandleUsage` | bot.js:514-517 | a usage reply is the only message, and nothing is looked up, encoded or recorded |
| `BotJs.PluBranchTransparent` | bot.js:512-533 | the acknowledgement, then one reply with each word's catalog answer in order; barcodes and last products untouched |
| `BotJs.HandlePluSearch` | bot.js:512-533 | the same for a whole `.plu` message |
| `BotJs.HandleBulkFallback` | bot.js:545-555 | with no code the chat's last product is used; with none recorded the reply is `Produk tidak ditemukan` and nothing changes |
| `BotJs.BulkReplyFromChat` | bot.js:557-565 | a quantity the handler accepts never trips `qty invalid`: a bulk label fails only when the encoder does |
| `BotJs.LookupBranchRecords` | bot.js:570-576 | the default branch records the product iff it found one and its label was made |
| `BotJs.BulkBranchKeepsLast` | bot.js:536-567 | `.bulk` never changes a chat's last product |
| `BotJs.HandleRecordsLastProduct` | bot.js:455 | a chat's last product changes only after a found product's label is made, and no other chat's entry ever changes |
| `BotJs.BulkBranchProducts` | bot.js:545-550 | `.bulk` changes the product cache only through the lookup of its code |
| `BotJs.LookupBranchProducts` | bot.js:570-576 | the default branch changes the product cache only through its one lookup |
| `BotJs.HandleKeepsCacheValid` | bot.js:507-581 | every message keeps the product cache's keys distinct and within 2000 |
| `BotJs.SendBarcodeInfoReplies` | bot.js:446-461 | progress message, then the captioned label iff it was made (else `❌ Error membuat barcode`); records the product exactly then |
| `BotJs.LabelFlowCases` | bot.js:446-461 | the two replies and the state for any generator result |
| `BotJs.HandleLookupMiss` | bot.js:570-576 | a lookup that finds nothing sends the acknowledgement and the not-found text, and changes no state |
| `BotJs.HandleLookupHit` | bot.js:570-576 | a found product gets three messages, the last being the label iff it was made |
| `BotJs.Bot.constructor` | bot.js:15-62 | the three maps start empty |
| `BotJs.Bot.CreateBarcodeImage` | bot.js:118-282 | the in-place generator equals its specification |
| `BotJs.Bot.GenerateBulkImage` | bot.js:285-443 | the in-place bulk generator equals its specification |
| `BotJs.Bot.SendBarcodeInfo` | bot.js:446-461 | the in-place `sendBarcodeInfo` equals its specification |
| `BotJs.Bot.LookUpEach` | bot.js:522-530 | the `for` loop over the words equals the search specification |
| `BotJs.Bot.SearchMany` | bot.js:512-533 | the `.plu` branch equals its specification |
| `BotJs.Bot.Bulk` | bot.js:536-567 | the `.bulk` branch equals its specification |
| `BotJs.Bot.LookupAndSend` | bot.js:570-576 | the default branch equals its specification |
| `BotJs.Bot.HandleMessage` | bot.js:507-581 | the message handler equals its specification |
| `BotDbOld.LabelledEscaped` | bot-db-old.js:132-134 | a fixed prefix followed by escaped text reads back as the prefix and the value |
| `BotDbOld.OrDefault` | bot-db-old.js:89-92 | an option falls back to its default exactly when it is absent or 0 (or equals the default); a non-zero default never gives 0 |
| `BotDbOld.Effective` | bot-db-old.js:89-92 | no size in effect is 0; with no options they are 1000, 60, 2 and 10 |
| `BotDbOld.InfoBlock` | bot-db-old.js:128-138 | `PLU: <plu>`, the display name and `Barcode: <code>`, each escaped, none cut |
| `BotDbOld.InfoCanvas` | bot-db-old.js:141-157 | the info block at 0, the barcode 15 below it and at `sidePadding` from the left, within the width, and 15 above the canvas's end |
| `BotDbOld.InfoLabel` | bot-db-old.js:141-144 | sharp rejects the resize iff `targetWidth - 2·sidePadding < 1` |
| `BotDbOld.CreateBarcodeImageCases` | bot-db-old.js:88-160 | a cached code is not re-encoded; an encoder error becomes `Barcode error: ...` and stores nothing; a new barcode stays cached when the resize fails |
| `BotDbOld.CacheKeyIgnoresSize` | bot-db-old.js:106-125 | once a code is cached, a call with other options gets the first call's barcode without the encoder |
| `BotDbOld.BulkInfo` | bot-db-old.js:194-203 | three lines: the escaped PLU (or `N/A`) and the escaped display name joined by ` - `, `Code: ` with the escaped code, and the fixed scan hint |
| `BotDbOld.BulkBarcode` | bot-db-old.js:206-209 | the barcode resized once to at most 760 wide |
| `BotDbOld.SheetCopies` | bot-db-old.js:212-224 | 2·qty layers; copy i has its block at `i·L` and its barcode at `i·L + 90`, inside its band |
| `BotDbOld.GenerateBulkImageCases` | bot-db-old.js:163-227 | qty outside 1..200 throws before the cache; otherwise the cached encode decides; the sheet is `qty` labels high |
| `BotDbOld.RawLookupAgrees` | bot-db-old.js:63-81 | the old lookup agrees with bot.js's whenever it finds something, and on every key without a digit retry |
| `BotDbOld.SearchLines` | bot-db-old.js:293-302 | one result line per word |
| `BotDbOld.LabelFlowCases` | bot-db-old.js:230-244 | one reply, the label iff it was made; the product is recorded exactly then |
| `BotDbOld.HandlePluSearch` | bot-db-old.js:287-305 | one reply with each word's raw lookup, in order; nothing encoded or recorded |
| `BotDbOld.HandleRecordsLastProduct` | bot-db-old.js:238 | a chat's last product changes only after a found product's label is made |
| `BotDbOld.HandleBulkFallback` | bot-db-old.js:315-325 | with no code the chat's last product is used or `Produk tidak ditemukan` is sent; accepted quantities pass `qty invalid` |
| `BotDbOld.OldBot.constructor` | bot-db-old.js:60-61 | both maps start empty |
| `BotDbOld.OldBot.CreateBarcodeImage` | bot-db-old.js:88-160 | the in-place generator equals its specification |
| `BotDbOld.OldBot.GenerateBulkImage` | bot-db-old.js:163-227 | the in-place generator, with its copy loop, equals its specification |
| `BotDbOld.OldBot.LookUpEach` | bot-db-old.js:293-302 | line k is word k's raw lookup line |
| `BotDbOld.OldBot.SendBarcodeInfo` | bot-db-old.js:230-244 | the in-place `sendBarcodeInfo` equals its specification |
| `BotDbOld.OldBot.SendBulk` | bot-db-old.js:328-338 | the bulk reply equals its specification |
| `BotDbOld.OldBot.Bulk` | bot-db-old.js:308-339 | the `.bulk` branch equals its specification |
| `BotDbOld.OldBot.LookupAndSend` | bot-db-old.js:342-347 | the default branch equals its specification |
| `BotDbOld.OldBot.HandleMessage` | bot-db-old.js:282-352 | the message handler equals its specification |
| `LibCore.PhotoUrl` | lib/core.js:104 | `gambar` when truthy, else `imageUrl` when truthy, else the empty URL |
| `LibCore.BarcodeBandOf` | lib/core.js:126-131 | the barcode resized to at most 500 wide; lib/core.js's placement equals the clamped one and lies within the width |
| `LibCore.CoreLabel` | lib/core.js:95-143 | photo, name, barcode and price at 0, 300, 380 and 590 on 540×670 |
| `LibCore.CoreLabelBands` | lib/core.js:102-143 | name and price shown five-entity escaped; the placeholder iff the photo fails, and always when both URLs are falsy; the barcode band ends 10 above the price, which ends the canvas |
| `LibCore.CreateBarcodeImageCases` | lib/core.js:75-146 | a cached code is not re-encoded; an encoder error propagates unchanged and stores nothing; a success gives the 540×670 label |
| `LibCore.Core.constructor` | lib/core.js:10-14 | both caches start empty |
| `LibCore.Core.FindProductLocally` | lib/core.js:39-73 | the in-place lookup equals the lookup specification and keeps the cache valid |
| `LibCore.Core.CreateBarcodeImage` | lib/core.js:75-146 | the in-place generator equals its specification |
| `TestBulk.NameBand` | test-bulk.js:58-65 | the display name cut to 40, five-entity escaped |
| `TestBulk.PriceBand` | test-bulk.js:93-99 | shows the price, or `-` when falsy, five-entity escaped, with no `Rp 0,-` substitution |
| `TestBulk.CodeBand` | test-bulk.js:68-90 | the code written in the band; the barcode at top 20, centred, 30 clear of both edges, inside the band iff ≤ 180 high |
| `TestBulk.SheetCopies` | test-bulk.js:101-114 | 4·qty layers; copy i at `820·i + {0, 400, 500, 710}`, inside its band |
| `TestBulk.GenerateBulkImageCases` | test-bulk.js:18-118 | qty outside 1..200 throws before the cache; otherwise the cached encode decides and a sheet is 540 × 820·qty |
| `TestBulk.ThreeCopies` | test-bulk.js:131-139 | qty 3 gives a 540×2460 sheet of twelve composites |
| `TestBulk.Generator.constructor` | test-bulk.js:16 | the cache starts empty |
| `TestBulk.Generator.GenerateBulkImage` | test-bulk.js:18-118 | the in-place generator, with its copy loop, equals its specification |
| `TestBulkNew.BulkLabel` | test-bulk-new.js:152-169 | photo, name, barcode, quantity and price at 0, 300, 380, 580 and 640 on 540×730 |
| `TestBulkNew.LabelBands` | test-bulk-new.js:54-150 | the bands show `nama` cut to 40 and the shown price; the placeholder iff the photo fails |
| `TestBulkNew.QtyOnlyInItsBand` | test-bulk-new.js:121-134 | two quantities give labels that differ only in the quantity band, and differ there |
| `TestBulkNew.GenerateBulkImageCases` | test-bulk-new.js:21-172 | any quantity is accepted; the cached encode decides; a label is 540×730 showing `Qty: <qty>` |
| `TestBulkNew.EncodedLabel` | test-bulk-new.js:35-43 | once encoded, every quantity's label comes from the same barcode |
| `TestBulkNew.RunOfThree` | test-bulk-new.js:184-200 | quantities 5, 12 and 20: after the first call the others are cache hits, and the labels differ only in the quantity |
| `TestBulkNew.Generator.constructor` | test-bulk-new.js:7 | the cache starts empty |
| `TestBulkNew.Generator.GenerateBulkImage` | test-bulk-new.js:21-172 | the in-place generator equals its specification |
| `TestWithImages.ImageLabel` | test-with-images.js:168-184 | photo, name, barcode and the fixed price at 0, 300, 380 and 590 on 540×670 |
| `TestWithImages.FixedPriceBand` | test-with-images.js:153-166 | the price band shows `Rp 0,-` |
| `TestWithImages.LabelShows` | test-with-images.js:65-166 | `nama` cut to 40 and `Rp 0,-` are shown; the placeholder iff the photo fails |
| `TestWithImages.LabelLayout` | test-with-images.js:124-182 | the barcode band ends 10 above the price, which ends the canvas; the barcode keeps 5 above it and fits iff ≤ 195 high |
| `TestWithImages.CreateBarcodeImageCases` | test-with-images.js:28-187 | a cached code is not re-encoded; an encoder error propagates and stores nothing; a success gives the label with `plu` or `N/A` and the name |
| `TestWithImages.PriceIgnored` | test-with-images.js:22-26 | the product's price changes neither the label nor the cache |
| `TestWithImages.FileNameNumber` | test-with-images.js:202 | the digits after `example-` are the position's number |
| `TestWithImages.FileNamesDistinct` | test-with-images.js:202 | different positions give different file names |
| `TestWithImages.NeverFails` | test-with-images.js:28-187 | with an encoder that never fails, every call gives a 670-high label |
| `TestWithImages.AllWritten` | test-with-images.js:189-210 | with such an encoder, one file per sample is written, in order, each under its own name |
| `TestWithImages.Generator.constructor` | test-with-images.js:7 | the cache starts empty |
| `TestWithImages.Generator.CreateBarcodeImage` | test-with-images.js:28-187 | the in-place generator equals its specification |
| `TestWithImages.Generator.GenerateExamples` | test-with-images.js:189-210 | the loop with a `try` per sample equals the batch specification |
| `TestPlu.FindByPlu` | test-plu.js:22-27 | none iff no record has that exact PLU; otherwise the first record that does |
| `TestPlu.CodeCompared` | test-plu.js:34-41 | the barcode-or-PLU code agrees with the other generators unless the barcode is all spaces, which is then encoded as it is in Code 128 |
| `TestPlu.PriceOrDefault` | test-plu.js:148 | the price, or `Rp 0,-` when falsy: always truthy |
| `TestPlu.PriceCompared` | test-plu.js:148 | this price equals lib/core.js's shown price iff the stored price is not `-` |
| `TestPlu.PluLabel` | test-plu.js:164-179 | photo, name, barcode and price at 0, 300, 380 and 590 on 540×670 |
| `TestPlu.LabelShows` | test-plu.js:69-179 | the name cut to 40 and the stored price (or `Rp 0,-`) are shown; the placeholder iff the photo fails |
| `TestPlu.FileNameInjective` | test-plu.js:181-183 | different PLUs are saved under different names |
| `TestPlu.GenerateForPluCases` | test-plu.js:21-199 | a PLU missing from the sheet changes nothing; a cached code is not re-encoded; an encoder failure stores nothing; a missing name fails after caching; a named record saves `test-plu-<plu>.png` at 540×670 |
| `TestPlu.Generator.constructor` | test-plu.js:44 | the cache starts empty |
| `TestPlu.Generator.GenerateBarcodeForPlu` | test-plu.js:21-199 | the in-place generator equals its specification |
| `TestRealData.NameBand` | test-real-data.js:63-69 | shows the name cut with `substring(0, 50)`, three-entity escaped |
| `TestRealData.PriceBand` | test-real-data.js:78-84 | shows the given price, three-entity escaped |
| `TestRealData.LabelLayout` | test-real-data.js:45-102 | 800×920: placeholder, name at 600, barcode at (20, 690) at most 760 wide and fitting iff ≤ 150 high, price at 840 ending 10 above the end |
| `TestRealData.NameCutToFifty` | test-real-data.js:66 | the shown name is a prefix of at most 50 characters, and whole when it is no longer |
| `TestRealData.CreateBarcodeImageCases` | test-real-data.js:23-105 | with no cache, the call succeeds iff the encoder does now, throws its message otherwise, and gives an 800×920 label |
| `GenerateSamples.Code` | generate-samples.js:35-37 | the barcode when it has a non-space character, else the PLU, else the empty code |
| `GenerateSamples.RequestText` | generate-samples.js:40-47 | an empty code is encoded as `000000` in Code 128; any other code as itself; the text is never empty |
| `GenerateSamples.FetchImageBuffer` | generate-samples.js:23-31 | a body exactly for an OK response; null for any other status or a network error |
| `GenerateSamples.ProductImageCases` | generate-samples.js:55-65 | always 1000 wide; the resized placeholder unless an OK photo was fetched; fails iff that photo cannot be decoded |
| `GenerateSamples.EscapeLines` | generate-samples.js:73 | each line is three-entity escaped and reads back as itself |
| `GenerateSamples.InfoBlockShows` | generate-samples.js:68-75 | 1000 × (40 + 50·2) = 140, showing the name and `PLU: <plu>` |
| `GenerateSamples.BarcodeWidth` | generate-samples.js:78 | `max(200, 1000 - 2·60)` is 880 |
| `GenerateSamples.StackContiguous` | generate-samples.js:83-91 | the three layers are contiguous from the top, the barcode at left 60, ending with the canvas |
| `GenerateSamples.MakeImageCases` | generate-samples.js:33-94 | an encoder error propagates; otherwise the call fails iff the product image does; an image is 1000 wide with a 140-high block and an 880-wide barcode 60 from either side |
| `GenerateSamples.SliceEnd` | generate-samples.js:98 | `slice(0, count)`: NaN takes nothing, a count takes `min(count, n)`, and a negative count counts from the end |
| `GenerateSamples.Items` | generate-samples.js:98 | the items are a prefix of the data |
| `GenerateSamples.DefaultCount` | generate-samples.js:9 | with no setting the first ten records, or all when fewer |
| `GenerateSamples.FileNameInjective` | generate-samples.js:103 | two file names are equal iff the positions and the PLU texts are |
| `GenerateSamples.Made` | generate-samples.js:99-110 | one `makeImage` outcome per item, in order |
| `GenerateSamples.BatchOfWellWritten` | generate-samples.js:99-110 | one file per record whose image was made, in position order, named after it and holding its image, whatever failed before |
| `GenerateSamples.BatchWellWritten` | generate-samples.js:96-112 | the same for the batch run over the selected items |
| `GenerateSamples.BatchNamesDistinct` | generate-samples.js:103 | no two files of a batch share a name |

## Left out

- The chat transport: the WhatsApp client, QR login and reconnection (bot.js:464-506 and 582-606, bot-db-old.js:247-281 and 353-377), `bot-baileys.js` and the HTTP wrapper `server.js`. The handler's routing is modelled on one message body and a chat id; sent messages are a returned list.
- SQL and `import-to-db.js`: the catalog is a sequence of records, and the database either answers or fails. The `UNIQUE` PLU constraint is a predicate that lemmas needing it take as a precondition.
- The network (timeouts, headers, `test-fetch-image.js`): a fetch is a function from URL to a status and body, or a network error.
- bwip-js and sharp: encoding, decoding and resizing are uninterpreted. Only their dimensions are stated: the width `withoutEnlargement` gives, and a resize to an explicit width. Fit modes, backgrounds and PNG bytes are not modelled. The height of a resized image is an unconstrained function of the sizes.
- SVG styling and text positions (gradients, colours, fonts, `width/2`, `lineHeight*(i+0.8)`): a band is modelled by the escaped text it writes. The SVG section under the barcode is a plain white composite.
- Floating point: prices and quantities are strings or integers. `Math.round` is modelled on integer halves only, where the source uses it.
- JavaScript strings are sequences of characters, not UTF-16 code units, so `substring` lengths count characters.
- A JavaScript value is `undefined`, `null`, a string or an integer. Records from the sheet or the database never hold other types in the modelled fields.
- File writes, console logging, `process.exit` and async scheduling. A thrown error is a `Failure` result. `test-plu.js`'s exit on error is its `Failed` outcome.
- `test-real-data.js`'s `generateExamples` loop only writes files and logs; only `createBarcodeImage` is modelled.
- `test-barcode-local.js` and `test-generate.js` run straight-line on hard-coded literals, with no parameterised logic beyond what the other files share.
- The handlers' outer `catch`, which sends a generic error: every modelled step returns its failure as a value. Only a failure of the transport itself, which is not modelled, would reach it.
- Errors sharp raises beyond a fetched buffer it cannot decode, and a resize width below 1: every other sharp call is taken to succeed.
- GenerateSamples.ProductImageCases: states implications for the fetched and unfetched cases rather than "placeholder iff not fetched". A decoded photo may equal the placeholder image, so the converse does not hold in the model.
- GenerateSamples.MakeImageCases: the resized placeholder's height comes from sharp, not necessarily 600; the image's height is stated as the sum of its layers' heights.
- Js.TrailingDigits: states only that the digit run is no longer than the string; TrailingDigitsStop states what the run is for a name ending in digits, which is the case the file names need.
- TestBulk.CodeBand: the SVG section and its code text are modelled as one text layer, with the barcode layered over it.
