# Sabah.Web test framework core, modelled in Dafny

Sabah.Web is a Java test framework for the sabah.com.tr news site. This
project models the logic of that framework that does not depend on a
browser. The model is organised by source file:

- **Visual regression** (`VisualTestManager`, `VisualTestResult`).
  Baselines and screenshots live in a file store, modelled as a map from
  path to file content.
  - `compareScreenshot` writes the current screenshot.
  - When no baseline exists, it copies the screenshot to the baseline
    path.
  - Otherwise it decodes both images and counts the pixels that agree,
    in a nested loop over a pixel array. The check passes when that share
    reaches the threshold.
  - `createBaseline`, `deleteBaseline` and `clearAllBaselines` change the
    store.
- **Performance** (`PerformanceManager`, `PerformanceResult`,
  `LoadTestResult`).
  - A measured page load passes when it is within
    `LOAD_TIME_THRESHOLD * 1000` ms. That product is a Java `int`
    multiplication.
  - A list of measurements is analysed into a load-test result. The
    result holds the totals, the average, the success rate, and a verdict
    of at least 95 % success with an average within the limit.
  - `generatePerformanceReport` builds the text report, with `%.2f`
    numbers.
- **Header component** (`HeaderComponent`). The component records
  whether the hamburger menu is open and the clicks, hovers and key
  presses it sends to the page. The locator lookups are case-insensitive
  tables that follow Java's `toUpperCase`/`toLowerCase` rules for Turkish
  letters. Some tables fall back to a default; others reject unknown
  names with an `IllegalArgumentException`.
- **Test data** (`TestDataManager`). A key/value table loaded from a
  properties file, or a built-in default table when the file cannot be
  read. It provides lookups with defaults, comma-separated list getters
  (Java `split`) and a random pick among the keys with a prefix.
- **API and database records** (`ApiResponse`, `TestResult`). Success,
  header lookup and emptiness of an HTTP response; the case-insensitive
  "PASS" status of a stored test result.

Support modules:

- `Wrappers`: `Option` and `Result`.
- `Rationals`: Java `double` values are modelled as exact fractions.
- `JavaStrings`: Java's case mapping, `trim`, `split`, `startsWith`,
  `endsWith`, `equalsIgnoreCase`, decimal printing and `%.2f`, each with
  its laws proved (idempotence, the split/join round trip, and others).

All source paths below are relative to the repository root.

## Model

| member | source | states |
|---|---|---|
| JavaStrings.ToLowerCase | src/main/java/sabah/com/components/common/HeaderComponent.java:555 | String.toLowerCase loses no char, and the result is at most twice as long (only İ becomes two chars) |
| JavaStrings.ToUpperCase | src/main/java/sabah/com/components/common/HeaderComponent.java:520 | String.toUpperCase loses no char, and the result is at most twice as long (only ß becomes two chars) |
| JavaStrings.EqualsIgnoreCase | src/main/java/sabah/com/database/TestResult.java:87 | a string equals itself ignoring case, and so does any string of the same length whose chars have the same upper cases |
| JavaStrings.Trim | src/main/java/sabah/com/components/common/HeaderComponent.java:481-482 | trim never lengthens a string, and a non-empty result starts and ends with a char above U+0020 |
| JavaStrings.Split | src/main/java/sabah/com/data/TestDataManager.java:103 | split of a string without the separator is the string alone; otherwise no empty piece is left at the end |
| JavaStrings.Fixed2 | src/main/java/sabah/com/performance/PerformanceManager.java:240-258 | %.2f prints an optional minus sign exactly for a negative value, then digits, a point and two digits; read without sign and point the digits give back the rounded hundredths |
| JavaStrings.ToLowerCaseIdempotent | src/main/java/sabah/com/components/common/HeaderComponent.java:555 | lower-casing twice equals lower-casing once, so a lower-cased key is looked up like the original |
| JavaStrings.ToUpperCaseIdempotent | src/main/java/sabah/com/components/common/HeaderComponent.java:520 | upper-casing twice equals upper-casing once |
| JavaStrings.ToLowerCaseAppend | src/main/java/sabah/com/components/common/HeaderComponent.java:555 | lower-casing distributes over concatenation |
| JavaStrings.ToUpperCaseAppend | src/main/java/sabah/com/components/common/HeaderComponent.java:520 | upper-casing distributes over concatenation |
| JavaStrings.ToLowerCaseCharwise | src/main/java/sabah/com/components/common/HeaderComponent.java:555 | without a dotted capital I, lower-casing keeps the length and maps each character on its own |
| JavaStrings.ToUpperCaseCharwise | src/main/java/sabah/com/components/common/HeaderComponent.java:520 | without a sharp s, upper-casing keeps the length and maps each character on its own |
| JavaStrings.TrimFacts | src/main/java/sabah/com/api/ApiResponse.java:89-91 | trim yields a contiguous slice with no white space at either end, and it is empty exactly when the string is all white space |
| JavaStrings.TrimIdempotent | src/main/java/sabah/com/components/common/HeaderComponent.java:481-482 | trimming a trimmed string changes nothing |
| JavaStrings.PiecesJoin | src/main/java/sabah/com/data/TestDataManager.java:101-104 | joining the pieces of a string cut at every separator gives back the string |
| JavaStrings.PiecesAreSeparatorFree | src/main/java/sabah/com/data/TestDataManager.java:101-104 | no piece of a string cut at every separator contains the separator |
| JavaStrings.PiecesOfJoin | src/main/java/sabah/com/data/TestDataManager.java:101-104 | cutting a join of separator-free pieces gives back the pieces |
| JavaStrings.SplitJoin | src/main/java/sabah/com/data/TestDataManager.java:101-104 | split round trip: splitting the comma-join of separator-free pieces whose last piece is non-empty returns exactly those pieces |
| JavaStrings.SplitPiecesHaveNoSeparator | src/main/java/sabah/com/data/TestDataManager.java:101-104 | no piece produced by split contains the separator |
| JavaStrings.NatToStringRoundTrip | src/main/java/sabah/com/performance/PerformanceManager.java:236 | the decimal text of a number is all digits, and reading it back gives the number |
| JavaStrings.Hundredths | src/main/java/sabah/com/performance/PerformanceManager.java:240 | the hundredths printed by %.2f are the magnitude times 100, rounded half up |
| JavaStrings.HundredthsOfWhole | src/main/java/sabah/com/performance/PerformanceManager.java:240 | the ratio 100·n/n is exactly 10000 hundredths, whatever n |
| JavaStrings.Fixed2OfInteger | src/main/java/sabah/com/performance/PerformanceManager.java:252 | %.2f of a whole number is its decimal text followed by ".00" |
| VisualTestResults.VisualTestResult.SimilarityPercentage | src/main/java/sabah/com/visual/VisualTestResult.java:75-77 | the percentage divided by 100 is the similarity; it lies in [0,100] for a similarity in [0,1] and is 100 exactly when the similarity is 1 |
| VisualTests.ReadFile | src/main/java/sabah/com/visual/VisualTestManager.java:139-140 | a decoded image is a well-formed raster; a missing file fails as an IOException |
| VisualTests.ColumnCountSplit | src/main/java/sabah/com/visual/VisualTestManager.java:151-160 | in a column, the agreeing and differing pixels together number the rows visited |
| VisualTests.MatchingPlusDiffering | src/main/java/sabah/com/visual/VisualTestManager.java:151-162 | over the visited columns, agreeing plus differing pixels equal columns times height |
| VisualTests.IdenticalColumn | src/main/java/sabah/com/visual/VisualTestManager.java:152-159 | a column compared with itself agrees everywhere |
| VisualTests.IdenticalMatchesAll | src/main/java/sabah/com/visual/VisualTestManager.java:151-162 | an image compared with itself has every pixel agreeing and none differing |
| VisualTests.SelfComparisonMatchesAll | src/main/java/sabah/com/visual/VisualTestManager.java:151-165 | equal images agree on width times height pixels |
| VisualTests.Similarity | src/main/java/sabah/com/visual/VisualTestManager.java:143-165 | the similarity is in [0,1]; it is 0 for different sizes; otherwise it is the agreeing pixels over the total; equal images score 1 |
| VisualTests.OneWhitePixelOfFour | src/main/java/sabah/com/visual/VisualTestManager.java:151-165 | a 2x2 black image against one with one white pixel scores exactly 3/4 |
| VisualTests.ImageSimilarity | src/main/java/sabah/com/visual/VisualTestManager.java:137-171 | an unreadable file scores 0; a file with no decoder is an error, the NullPointerException; any score is in [0,1] |
| VisualTests.BaselinePath | src/main/java/sabah/com/visual/VisualTestManager.java:110-112 | the baseline path lies in the baseline directory and ends in "_baseline.png" |
| VisualTests.ScreenshotPath | src/main/java/sabah/com/visual/VisualTestManager.java:96-103 | the screenshot path lies in the screenshot directory and ends in ".png" |
| VisualTests.BaselinePathInjective | src/main/java/sabah/com/visual/VisualTestManager.java:110-112 | distinct test names get distinct baseline paths |
| VisualTests.BaselinePathIsBaselineFile | src/main/java/sabah/com/visual/VisualTestManager.java:181-186 | every baseline path is a file that clearAllBaselines removes |
| VisualTests.WithoutBaselines | src/main/java/sabah/com/visual/VisualTestManager.java:176-193 | the cleared store keeps exactly the files that are not baseline PNGs, unchanged |
| VisualTests.ClearedStoreHasNoBaselines | src/main/java/sabah/com/visual/VisualTestManager.java:176-193 | after clearing, no test's baseline remains, and files not ending in "_baseline.png" survive |
| VisualTests.Copied | src/main/java/sabah/com/visual/VisualTestManager.java:119-121 | Files.copy without REPLACE_EXISTING succeeds exactly when the source exists and the target is absent or the same file; the target then holds the source's content |
| VisualTests.CompareScreenshotSpec | src/main/java/sabah/com/visual/VisualTestManager.java:35-66 | compareScreenshot changes no existing file other than the new screenshot, adds at most the screenshot and the baseline, and passes only with a baseline present |
| VisualTests.CreateBaselineSpec | src/main/java/sabah/com/visual/VisualTestManager.java:74-88 | createBaseline changes no existing file other than the new screenshot; on success the baseline holds the screenshot's content |
| VisualTests.FirstRunCreatesBaseline | src/main/java/sabah/com/visual/VisualTestManager.java:46-50 | with no baseline, the screenshot becomes the baseline and the check passes with similarity 1 and the creation message |
| VisualTests.ExistingBaselineVerdict | src/main/java/sabah/com/visual/VisualTestManager.java:53-60 | with a baseline present, the baseline is unchanged, the check passes exactly when the similarity reaches the threshold, and rerunning gives the same result |
| VisualTests.SecondRunWithSameImagePasses | src/main/java/sabah/com/visual/VisualTestManager.java:35-66 | after the first run, the same image passes with similarity 1 at any threshold up to 1 |
| VisualTests.SizeMismatchFails | src/main/java/sabah/com/visual/VisualTestManager.java:143-148 | a screenshot of another size scores 0 and fails every positive threshold |
| VisualTests.UnreadableFormatIsError | src/main/java/sabah/com/visual/VisualTestManager.java:62-65 | an undecodable screenshot yields the error result: not passed, similarity 0, empty paths |
| VisualTests.DeleteThenCompareRecreates | src/main/java/sabah/com/visual/VisualTestManager.java:199-210 | checking after deleteBaseline behaves as a first run and recreates the baseline |
| VisualTests.CreateBaselineKeepsExisting | src/main/java/sabah/com/visual/VisualTestManager.java:74-88 | createBaseline returns true exactly when a screenshot exists and no baseline does; an existing baseline is never overwritten |
| VisualTests.CountMatching | src/main/java/sabah/com/visual/VisualTestManager.java:151-162 | the nested pixel loop counts exactly the agreeing pixels |
| VisualTests.VisualTestManager.ReadImage | src/main/java/sabah/com/visual/VisualTestManager.java:139-140 | decoding succeeds exactly for a readable image, into a fresh array holding its pixels, and fails as IOException exactly for an unreadable file |
| VisualTests.VisualTestManager.CompareImages | src/main/java/sabah/com/visual/VisualTestManager.java:137-171 | the method returns the similarity that ImageSimilarity specifies |
| VisualTests.VisualTestManager.CopyFile | src/main/java/sabah/com/visual/VisualTestManager.java:119-121 | the store after the copy is what Copied specifies, unchanged on failure |
| VisualTests.VisualTestManager.CompareScreenshot | src/main/java/sabah/com/visual/VisualTestManager.java:35-66 | the result and the new store are those of the compareScreenshot specification on the old store |
| VisualTests.VisualTestManager.CreateBaseline | src/main/java/sabah/com/visual/VisualTestManager.java:74-88 | the verdict and the new store are those of the createBaseline specification |
| VisualTests.VisualTestManager.DeleteBaseline | src/main/java/sabah/com/visual/VisualTestManager.java:199-210 | exactly the test's baseline is removed |
| VisualTests.VisualTestManager.ClearAllBaselines | src/main/java/sabah/com/visual/VisualTestManager.java:176-193 | the new store is the old one without baseline files |
| PerformanceResults.PerformanceResult.DomReadyTimeSeconds | src/main/java/sabah/com/performance/PerformanceResult.java:74-76 | seconds times 1000 equal the stored milliseconds |
| PerformanceResults.PerformanceResult.PageLoadTimeSeconds | src/main/java/sabah/com/performance/PerformanceResult.java:82-84 | seconds times 1000 equal the stored milliseconds |
| LoadTestResults.LoadTestResult.SuccessRatePercentage | src/main/java/sabah/com/performance/LoadTestResult.java:86-88 | the percentage over 100 is the success rate, and it lies in [0,100] for a rate in [0,1] |
| LoadTestResults.LoadTestResult.AvgResponseTimeSeconds | src/main/java/sabah/com/performance/LoadTestResult.java:94-96 | seconds times 1000 equal the average in milliseconds |
| LoadTestResults.LoadTestResult.ErrorRate | src/main/java/sabah/com/performance/LoadTestResult.java:102-104 | 0 without requests, else failed over total, and in [0,1] when failures are at most the total |
| LoadTestResults.LoadTestResult.ErrorRatePercentage | src/main/java/sabah/com/performance/LoadTestResult.java:110-112 | the percentage over 100 is the error rate |
| PerformanceManagement.Wrap32 | src/main/java/sabah/com/performance/PerformanceManager.java:57 | the 32-bit wrap of a value agrees with it modulo 2^32 and keeps values already in range |
| PerformanceManagement.LoadTimeLimitMillis | src/main/java/sabah/com/performance/PerformanceManager.java:57 | the limit is threshold times 1000 whenever that product fits in an int |
| PerformanceManagement.MeasurePageLoadTime | src/main/java/sabah/com/performance/PerformanceManager.java:32-69 | a failed load gives (url, 0, 0, "", false) and never passes; a load keeps its times and passes exactly when its page-load time is within the limit, for every threshold |
| PerformanceManagement.DefaultVerdict | src/main/java/sabah/com/performance/PerformanceManager.java:22 | with the default threshold of 10, a load passes exactly when it takes at most 10000 ms |
| PerformanceManagement.CountPassed | src/main/java/sabah/com/performance/PerformanceManager.java:188 | the passed count is at most the number of results |
| PerformanceManagement.CountPassedExtremes | src/main/java/sabah/com/performance/PerformanceManager.java:188 | the count equals the length exactly when all passed, and is 0 exactly when none did |
| PerformanceManagement.MaxLoadTime | src/main/java/sabah/com/performance/PerformanceManager.java:196-199 | the maximum bounds every load time and is one of them |
| PerformanceManagement.MinLoadTime | src/main/java/sabah/com/performance/PerformanceManager.java:201-204 | the minimum is below every load time and is one of them |
| PerformanceManagement.TotalBetween | src/main/java/sabah/com/performance/PerformanceManager.java:191-194 | a sum of values in [lo,hi] lies between n·lo and n·hi |
| PerformanceManagement.AverageBetweenMinAndMax | src/main/java/sabah/com/performance/PerformanceManager.java:191-204 | the average lies between the minimum and the maximum |
| PerformanceManagement.AnalyzeLoadTestResults | src/main/java/sabah/com/performance/PerformanceManager.java:180-222 | no results give the all-zero failing result; otherwise total, passed and failed add up, the rate is passed over total in [0,1], the average is total time over count, and the test passes exactly at 95 % success with the average within the limit |
| PerformanceManagement.ErrorRatePlusSuccessRate | src/main/java/sabah/com/performance/PerformanceManager.java:187-206 | the analysed error rate and success rate add up to 1 |
| PerformanceManagement.AllFastPassesLoadTest | src/main/java/sabah/com/performance/PerformanceManager.java:206-207 | if every measurement passed within 10000 ms, the load test passes |
| PerformanceManagement.FullPassRateText | src/main/java/sabah/com/performance/PerformanceManager.java:240 | a 100 % pass rate prints as "100.00" |
| PerformanceManagement.AllPassedReportLines | src/main/java/sabah/com/performance/PerformanceManager.java:240-258 | when all passed, the rate line reads "100.00", and the maximum and minimum print as integers with ".00" |
| PerformanceManagement.GeneratePerformanceReport | src/main/java/sabah/com/performance/PerformanceManager.java:229-261 | "Performans raporu: Veri yok" for no results; otherwise the title and six lines: count, passed, rate in percent, average, maximum and minimum with two decimals |
| Header.MainMenuLink | src/main/java/sabah/com/components/common/HeaderComponent.java:520-548 | a link exactly for the nine items in both spellings, always a main-menu link |
| Header.MainMenuLocator | src/main/java/sabah/com/components/common/HeaderComponent.java:519-549 | success exactly when the upper-cased item is a known name; otherwise the "Geçersiz menü öğesi" error naming the item |
| Header.MainMenuCaseInsensitive | src/main/java/sabah/com/components/common/HeaderComponent.java:520 | an item and its upper case resolve alike |
| Header.MainMenuSpellingsAgree | src/main/java/sabah/com/components/common/HeaderComponent.java:523-534 | Turkish and ASCII spellings of Son Dakika, Gündem, Ekonomi and Yaşam reach the same link |
| Header.MainMenuSpellingsAgreeToo | src/main/java/sabah/com/components/common/HeaderComponent.java:535-543 | the same for Eğitim, Dünya and Resmi İlanlar |
| Header.GundemInAnyCase | src/main/java/sabah/com/components/common/HeaderComponent.java:519-549 | "Gündem" and "gundem" both reach the Gündem link |
| Header.EgitimIsRejected | src/main/java/sabah/com/components/common/HeaderComponent.java:519-549 | "Eğitim" upper-cases to "EĞITIM", which matches neither spelling, so it is rejected |
| Header.HamburgerItem | src/main/java/sabah/com/components/common/HeaderComponent.java:555-592 | an item exactly for the known categories in both spellings, always a hamburger item |
| Header.HamburgerMenuItemLocator | src/main/java/sabah/com/components/common/HeaderComponent.java:554-596 | a known lower-cased category gives its item; any other is found by its text inside the panel, so the lookup never fails |
| Header.HamburgerSpellingsAgree | src/main/java/sabah/com/components/common/HeaderComponent.java:562-574 | both spellings of Resmi İlanlar, Tarım and Eğlence reach the same item |
| Header.HamburgerSpellingsAgreeToo | src/main/java/sabah/com/components/common/HeaderComponent.java:575-582 | the same for Diğer and Sabah TV |
| Header.HamburgerSpellingsAgreeAsWell | src/main/java/sabah/com/components/common/HeaderComponent.java:583-590 | the same for Video Galeri and Şans Oyunları |
| Header.LowerCaseOfDottedCapitalI | src/main/java/sabah/com/components/common/HeaderComponent.java:563 | a dotted capital İ lower-cases to "i" plus a combining dot, which is why that key appears in the table |
| Header.HamburgerCaseInsensitive | src/main/java/sabah/com/components/common/HeaderComponent.java:555 | a known category and its lower case give the same item |
| Header.SubMenusInsideContainer | src/main/java/sabah/com/components/common/HeaderComponent.java:121-128 | every sub-menu locator starts with the sub-menu container |
| Header.SubMenuLocator | src/main/java/sabah/com/components/common/HeaderComponent.java:601-625 | a category without a sub-menu gives the generic container; every result is a sub-menu |
| Header.SubMenuItemLocator | src/main/java/sabah/com/components/common/HeaderComponent.java:414-426 | the clicked locator starts with the category's sub-menu locator, hence lies inside the container, and ends with the entry's text selector |
| Header.OtherSiteLink | src/main/java/sabah/com/components/common/HeaderComponent.java:165-183 | a link exactly for the five sites, günaydın in both spellings |
| Header.OtherSiteLocator | src/main/java/sabah/com/components/common/HeaderComponent.java:164-186 | success exactly for a known lower-cased name; otherwise the "Geçersiz site adı" error |
| Header.OtherSiteKeys | src/main/java/sabah/com/components/common/HeaderComponent.java:165-183 | kobi and video have locators but are rejected; "günaydın" and "gunaydin" agree |
| Header.GunaydinCapsIsRejected | src/main/java/sabah/com/components/common/HeaderComponent.java:164-186 | "GÜNAYDIN" lower-cases to "günaydin" and is rejected |
| Header.SocialMediaIcon | src/main/java/sabah/com/components/common/HeaderComponent.java:194-209 | an icon exactly for the four platforms and "x" |
| Header.SocialMediaLocator | src/main/java/sabah/com/components/common/HeaderComponent.java:193-212 | success exactly for a known lower-cased platform; otherwise the "Geçersiz platform" error |
| Header.SocialMediaKeys | src/main/java/sabah/com/components/common/HeaderComponent.java:200-202 | "x" and "twitter" give the same icon; tiktok is unknown |
| Header.BorsaField | src/main/java/sabah/com/components/common/HeaderComponent.java:305-324 | a field exactly for bist, dolar, euro, altın/altin and bitcoin |
| Header.BorsaLocator | src/main/java/sabah/com/components/common/HeaderComponent.java:303-329 | success exactly for a known lower-cased data type; otherwise the "Geçersiz veri tipi" error |
| Header.BorsaKeys | src/main/java/sabah/com/components/common/HeaderComponent.java:315-317 | both spellings of altın agree; sterlin is unknown |
| Header.CanliYayinChannel | src/main/java/sabah/com/components/common/HeaderComponent.java:437-461 | a link exactly for the seven channels |
| Header.CanliYayinLocator | src/main/java/sabah/com/components/common/HeaderComponent.java:433-465 | success exactly for a known lower-cased channel; otherwise the "Geçersiz kanal adı" error |
| Header.CanliYayinKeys | src/main/java/sabah/com/components/common/HeaderComponent.java:437-461 | ahaber is known; trt is not |
| Header.ClosedTablesCaseInsensitive | src/main/java/sabah/com/components/common/HeaderComponent.java:164-212 | each rejecting table answers alike for a name and its lower case |
| Header.FilterCategories | src/main/java/sabah/com/components/common/HeaderComponent.java:479-484 | no more categories than entries, each non-empty and already trimmed; FilterOne and FilterConcat pin down the result for every list |
| Header.CategoriesComeFromEntries | src/main/java/sabah/com/components/common/HeaderComponent.java:479-484 | every category is the trimmed text of some entry |
| Header.FilterOne | src/main/java/sabah/com/components/common/HeaderComponent.java:481-483 | one entry yields its trimmed text when it is non-null and not blank, and nothing otherwise |
| Header.FilterConcat | src/main/java/sabah/com/components/common/HeaderComponent.java:479-484 | the categories of two lists one after the other are those of the first followed by those of the second, so entries are kept in order |
| Header.NonBlankEntriesAreKept | src/main/java/sabah/com/components/common/HeaderComponent.java:481-483 | when no entry is null or blank, every entry yields its trimmed text, in its place |
| Header.HeaderComponent.IsHamburgerMenuOpen | src/main/java/sabah/com/components/common/HeaderComponent.java:377-381 | the menu's open state that the component tracks |
| Header.HeaderComponent.constructor | src/main/java/sabah/com/components/common/HeaderComponent.java:144-147 | a fresh component has sent nothing, and the menu state is the page's |
| Header.HeaderComponent.OpenHamburgerMenu | src/main/java/sabah/com/components/common/HeaderComponent.java:348-356 | the menu ends open; the icon is clicked only if it was closed |
| Header.HeaderComponent.CloseHamburgerMenu | src/main/java/sabah/com/components/common/HeaderComponent.java:361-370 | the menu ends closed; the close icon is clicked only if it was open |
| Header.HeaderComponent.CloseHamburgerMenuWithEsc | src/main/java/sabah/com/components/common/HeaderComponent.java:494-500 | the menu ends closed; Escape is pressed only if it was open |
| Header.HeaderComponent.CloseHamburgerMenuByClickingOverlay | src/main/java/sabah/com/components/common/HeaderComponent.java:506-512 | the menu ends closed; the overlay is clicked only if it was open |
| Header.HeaderComponent.ToggleTwice | src/main/java/sabah/com/components/common/HeaderComponent.java:348-370 | from closed, open, open, close, close clicks each icon once and ends closed |
| Header.HeaderComponent.ClickMainMenuItem | src/main/java/sabah/com/components/common/HeaderComponent.java:239-243 | the click goes to the main-menu locator's link; an unknown item fails with nothing sent |
| Header.HeaderComponent.GoToOtherSite | src/main/java/sabah/com/components/common/HeaderComponent.java:164-186 | the click goes to the site's link; an unknown site fails with nothing sent |
| Header.HeaderComponent.ClickSocialMediaIcon | src/main/java/sabah/com/components/common/HeaderComponent.java:193-212 | the click goes to the platform's icon; an unknown platform fails with nothing sent |
| Header.HeaderComponent.SelectFromHamburgerMenu | src/main/java/sabah/com/components/common/HeaderComponent.java:388-393 | the menu is opened if needed, then the category's item is clicked |
| Header.HeaderComponent.HoverOnHamburgerMenuItem | src/main/java/sabah/com/components/common/HeaderComponent.java:400-406 | the menu is opened if needed, then the category's item is hovered |
| Header.HeaderComponent.SelectSubMenuItem | src/main/java/sabah/com/components/common/HeaderComponent.java:414-426 | after the hover, the sub-menu entry is clicked |
| Header.HeaderComponent.ClickCanliYayinLink | src/main/java/sabah/com/components/common/HeaderComponent.java:433-465 | the menu is opened first, so an unknown channel fails with the menu open and only the menu icon clicked |
| Header.HeaderComponent.GetHamburgerMenuCategories | src/main/java/sabah/com/components/common/HeaderComponent.java:472-488 | the loop over entries returns FilterCategories of their texts, with the menu open |
| TestData.TestDataManager.constructor | src/main/java/sabah/com/data/TestDataManager.java:21-23 | the table is the file's, or the default table when the file cannot be read |
| TestData.TestDataManager.LoadTestData | src/main/java/sabah/com/data/TestDataManager.java:28-40 | the table is the file's, or the default table when the file cannot be read |
| TestData.TestDataManager.ReloadTestData | src/main/java/sabah/com/data/TestDataManager.java:196-198 | same outcome as loading |
| TestData.TestDataManager.CreateDefaultTestData | src/main/java/sabah/com/data/TestDataManager.java:45-76 | the table becomes exactly the seventeen default properties |
| TestData.TestDataManager.GetTestDataOr | src/main/java/sabah/com/data/TestDataManager.java:93-95 | the stored value, or the given default for a missing key |
| TestData.TestDataManager.GetTestData | src/main/java/sabah/com/data/TestDataManager.java:83-85 | the lookup with default "" |
| TestData.TestDataManager.SearchKeywords | src/main/java/sabah/com/data/TestDataManager.java:101-104 | the pieces contain no comma; a missing key yields [""] |
| TestData.TestDataManager.MainCategories | src/main/java/sabah/com/data/TestDataManager.java:110-113 | the pieces contain no comma; a missing key yields [""] |
| TestData.TestDataManager.SubCategories | src/main/java/sabah/com/data/TestDataManager.java:119-122 | the pieces contain no comma; a missing key yields [""] |
| TestData.TestDataManager.SocialMediaLinks | src/main/java/sabah/com/data/TestDataManager.java:128-135 | exactly the four platforms, each mapped to its stored link |
| TestData.TestDataManager.BorsaData | src/main/java/sabah/com/data/TestDataManager.java:141-148 | four values, bist, dolar, euro and altin, in that order |
| TestData.TestDataManager.ValidUser | src/main/java/sabah/com/data/TestDataManager.java:154-159 | exactly email and password, from the valid-user keys |
| TestData.TestDataManager.InvalidUser | src/main/java/sabah/com/data/TestDataManager.java:165-170 | exactly email and password, from the invalid-user keys |
| TestData.TestDataManager.GetRandomTestData | src/main/java/sabah/com/data/TestDataManager.java:177-191 | "" when no key has the prefix; otherwise the value of some key with the prefix |
| TestData.DefaultSearchKeywords | src/main/java/sabah/com/data/TestDataManager.java:49 | the default keywords split to gündem, ekonomi, spor, teknoloji |
| TestData.DefaultMainCategories | src/main/java/sabah/com/data/TestDataManager.java:54 | the default main categories split to their five names |
| TestData.DefaultSubCategories | src/main/java/sabah/com/data/TestDataManager.java:55 | the default sub-categories split to futbol, basketbol, tenis |
| TestData.DefaultBorsaData | src/main/java/sabah/com/data/TestDataManager.java:64-67 | with the defaults, the market list is BIST, Dolar, Euro, Altın |
| TestData.DefaultLookups | src/main/java/sabah/com/data/TestDataManager.java:50 | with the defaults, search.valid is "haber", and a missing key gives "" or the given default |
| ApiResponses.ApiResponse.IsSuccess | src/main/java/sabah/com/api/ApiResponse.java:64-66 | success exactly for a status of the 2xx class |
| ApiResponses.ApiResponse.GetHeader | src/main/java/sabah/com/api/ApiResponse.java:73-75 | a value exactly for a present header, and it is the stored one |
| ApiResponses.ApiResponse.IsEmpty | src/main/java/sabah/com/api/ApiResponse.java:89-91 | empty exactly when the body is null or only white space |
| ApiResponses.NewApiResponse | src/main/java/sabah/com/api/ApiResponse.java:21-26 | the response keeps code, body and headers and is stamped with the clock reading |
| ApiResponses.FallbackResponse | src/main/java/sabah/com/api/ApiManager.java:170-173 | the fallback response of a failed request is not a success, is empty and has no header at all |
| ApiResponses.EmptyBodies | src/main/java/sabah/com/api/ApiResponse.java:89-91 | a body of white space is empty; " {} " is not |
| TestResults.TestResult.DurationSeconds | src/main/java/sabah/com/database/TestResult.java:94-96 | seconds times 1000 equal the stored milliseconds |
| TestResults.TestResult.IsPassed | src/main/java/sabah/com/database/TestResult.java:86-88 | a passed status is present and four letters long, and "PASS" itself is passed |
| TestResults.PassedCharacterization | src/main/java/sabah/com/database/TestResult.java:86-88 | passed exactly for a four-letter status matching "PASS" ignoring case, letter by letter, the long s included |
| TestResults.PassedExamples | src/main/java/sabah/com/database/TestResult.java:86-88 | "pass" and "Pass" pass; null, "FAIL" and "PASSED" do not |

## Left out

- Browser and page interaction. The bodies of Playwright/Selenium calls
  are outside the model: navigation, waits, visibility checks, `wait(500)`,
  screenshot capture and reading element texts. A click, hover or key
  press is recorded as an action. The page's menu visibility is the
  `menuOpen` field. The texts the page returns are inputs.
- `getBorsaData`'s reading of the element text. Only the locator
  selection and its error are modelled; the text is whatever the page
  shows.
- Image decoding and file I/O. The file store is a map from path to
  content, and a decoded PNG is an integer raster. Directory creation
  (`createDirectories`) is left out.
- `File.separator` is assumed to be "/". Paths are not normalised.
- Clocks. `System.currentTimeMillis` is a parameter: the load times in
  `measurePageLoadTime` and the response time in `ApiResponse`. The
  screenshot timestamp is also a parameter.
- `performLoadTest`, `createThreadDriver` and `getJavaScriptMetrics`.
  They need threads and a browser; their results are inputs to the
  analysis.
- `ApiManager.sendRequest` (HTTP) and `DatabaseManager` (JDBC). Only the
  records they produce are modelled.
- Properties file parsing. A load receives the parsed table, or None when
  the file cannot be opened.
- `ConfigReader`, logging and the `toString` methods of the records.
- Java `double` arithmetic. Averages, rates and similarities are exact
  fractions, so `%.2f` is applied to the exact value. The verdicts
  compare exact values, not rounded doubles.
- `long` overflow is not modelled. Counts and sums are unbounded
  integers. The one `int` product, `LOAD_TIME_THRESHOLD * 1000`, is
  wrapped to 32 bits explicitly.
- JavaStrings.ToLowerCase and JavaStrings.ToUpperCase cover ASCII,
  Latin-1 and the Turkish letters under a non-Turkish default locale. The
  rest of Unicode is left unchanged.
- JavaStrings.Fixed2 assumes a default locale whose decimal separator is
  '.', such as en_US. Under tr_TR, de_DE or fr_FR, `String.format("%.2f",
  …)` prints ',' instead; that locale dependence is not modelled.
- VisualTests.ImageSimilarity does not model exception texts. The text
  of an exception (`NoSuchFileException`, `FileAlreadyExistsException`,
  the `NullPointerException` of a missing decoder) is approximated by a
  fixed reason string.
- The `concurrentUsers` and `duration` parameters of
  `analyzeLoadTestResults` are unused by the source and are dropped.
- ApiResponses.ApiResponse.GetHeader assumes a non-null headers map. A
  null map, which makes the Java getter throw, is not modelled.
- The plain getters of the records are the datatypes' field
  destructors.
- The documentation of `createBaseline` says it overwrites an existing
  baseline. The code calls `Files.copy` without `REPLACE_EXISTING`, so it
  returns false instead; the model follows the code
  (`VisualTests.CreateBaselineKeepsExisting`).
