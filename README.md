# SolarStorm Scout, modelled in Dafny

SolarStorm Scout is a bot that posts HF radio propagation and space-weather
conditions to Bluesky and Mastodon. On each round it does four things:

- reads NOAA's feeds: the 10.7 cm solar flux, the planetary K-index, the
  R/S/G scales, the GOES X-ray flux and the aurora power;
- derives further metrics from them: foF2, D-layer absorption, MUF, an overall
  propagation tier, a band-by-band table and the recommended bands;
- formats a five-post thread within each platform's character limit;
- posts that thread to every authenticated platform as a reply chain.

This project models that core as Dafny modules, one per source file, and
proves what each part promises:

| module | source file | form |
|---|---|---|
| `SpaceWeather` | `solarstorm_scout/spaceweather.py` | pure functions plus the fetch routine as methods over explicit feed values |
| `Formatter` | `solarstorm_scout/formatter.py` | the post texts as functions; the loops as methods |
| `Configuration` | `solarstorm_scout/config.py` | value masking and source resolution as functions; `Config` as a class with its one-shot warning flags and log |
| `Social` | `solarstorm_scout/social.py` | hashtag segmentation as a method. The two posters and the manager are classes whose feeds, platform lists and sign-in state change in place. |
| `ChartRenderer` | `solarstorm_scout/chart_renderer.py` | the data preparation of `plot_xray_flux`: period lookup, bucketing by time, sorting |
| `Demo` | `solarstorm_scout/demo.py` | `print_post`'s length line and line wrapping |
| `Common`, `Text` | — | `Option`/`Result`, and the string and number-formatting helpers the modules share |

Numbers the source computes with floating point are modelled as exact reals.
The one rounding that feeds later decisions is `round(estimate_fof2(sfi), 1)`.
It is computed exactly on integers, and a lemma ties it to the real square
root. `int()` truncation is written out as `Trunc`.

The A-index is `int(K² × 3.3)` (`spaceweather.py:251`). It truncates, so K = 3
gives 29. `SpaceWeather.AIndexFloor` proves the truncating form.

## Model

| member | source | states |
|---|---|---|
| SpaceWeather.CriticalFrequencyUnique | solarstorm_scout/spaceweather.py:42-44 | the foF2 estimate `7·sqrt(max(sfi,50)/100)` is a single well-defined value |
| SpaceWeather.CriticalFrequencyFloor | solarstorm_scout/spaceweather.py:43 | any flux at or below 50 gives the same foF2 as a flux of 50 |
| SpaceWeather.CriticalFrequencyMonotone | solarstorm_scout/spaceweather.py:42-44 | a higher solar flux never gives a lower foF2 |
| SpaceWeather.CriticalFrequencyRange | solarstorm_scout/spaceweather.py:42-44 | foF2 is above 4.949 MHz for every flux, below 4.95 at the floor, and exactly 7.0 at SFI 100 |
| SpaceWeather.Fof2Tenths | solarstorm_scout/spaceweather.py:320 | the rounded foF2 in tenths is the integer n with n(n-1) < 49·max(sfi,50) <= n(n+1) |
| SpaceWeather.Fof2TenthsRoundsEstimate | solarstorm_scout/spaceweather.py:320 | that integer is within half a tenth of ten times the real foF2, so it is `round(estimate, 1)` |
| SpaceWeather.RoundedFof2Examples | solarstorm_scout/spaceweather.py:320 | SFI 100 gives 7.0; SFI 0 and SFI 50 give 4.9; SFI 150 gives 8.6 |
| SpaceWeather.DLayerAbsorption | solarstorm_scout/spaceweather.py:47-99 | the factor is capped at 1.0 and is non-negative for a non-negative flux; the period is Day exactly when the hour is within 6 of noon; the level comes from the 0.2/0.4/0.6 thresholds |
| SpaceWeather.BaseAbsorptionProfile | solarstorm_scout/spaceweather.py:63-73 | the unscaled profile is 0.7 at noon and 0.3 at hours 6 and 18, 0.05 outside the day window, and stays within [0.05, 0.7] over the day |
| SpaceWeather.AbsorptionFluxCap | solarstorm_scout/spaceweather.py:76-77 | a flux above 300 counts as 300: the flux factor saturates at 2.0 |
| SpaceWeather.AbsorptionStormSurcharge | solarstorm_scout/spaceweather.py:80-83 | K >= 5 adds exactly 0.2 to the factor, capped at 1.0; every K below 5 gives the same result |
| SpaceWeather.AbsorptionMonotone | solarstorm_scout/spaceweather.py:47-99 | at a fixed hour, more flux or a higher K never lowers the factor or the level |
| SpaceWeather.BaseScalingMonotone | solarstorm_scout/spaceweather.py:64-77 | at a fixed hour, scaling the base absorption by the flux factor keeps the order of the fluxes |
| SpaceWeather.StormClampMonotone | solarstorm_scout/spaceweather.py:79-83 | the storm surcharge and the cap at 1 never reverse the order of two absorptions |
| SpaceWeather.LevelOfMonotone | solarstorm_scout/spaceweather.py:86-97 | a larger factor never falls into a lower level |
| SpaceWeather.AbsorptionExamples | solarstorm_scout/spaceweather.py:47-99 | noon with SFI 150 gives 0.7 "Very High (Day)"; midnight with SFI 70 gives 7/300 "Low (Night)" |
| SpaceWeather.DayNightTestsAgree | solarstorm_scout/spaceweather.py:66-171 | on clock hours, the absorption day test (line 66), the band table's night test (line 123) and the best-bands day test (line 171) agree |
| SpaceWeather.ConditionsOfKeys | solarstorm_scout/spaceweather.py:125-162 | the dictionary built by the loop has exactly the names of the visited bands as keys |
| SpaceWeather.ConditionsOfValues | solarstorm_scout/spaceweather.py:125-162 | for distinct band names, each band's entry holds that band's own status |
| SpaceWeather.BandConditionsTable | solarstorm_scout/spaceweather.py:102-162 | the table's keys are exactly the ten bands, and each entry is the rule applied to that band |
| SpaceWeather.CalculateBandConditions | solarstorm_scout/spaceweather.py:102-162 | the loop over the ten bands builds exactly that table |
| SpaceWeather.ClosedIffAboveMuf | solarstorm_scout/spaceweather.py:128-131 | a band is Closed if and only if its frequency is above the MUF |
| SpaceWeather.FairAboveCriticalMultiple | solarstorm_scout/spaceweather.py:133-136 | a band under the MUF but above 2.5·foF2 is Fair |
| SpaceWeather.PoorOnlyForHighBands | solarstorm_scout/spaceweather.py:147-154 | only 15m/12m/10m/6m can be Poor, and only when foF2 <= 5 |
| SpaceWeather.LowBandsGoodIffNight | solarstorm_scout/spaceweather.py:139-145 | an open 160m or 80m band is Good at night and Fair by day |
| SpaceWeather.MidBandsRule | solarstorm_scout/spaceweather.py:156-160 | an open mid band is Good exactly when K < 4 and absorption < 0.5, otherwise Fair |
| SpaceWeather.BandConditionsExample | solarstorm_scout/spaceweather.py:102-162 | with foF2 7 and MUF 28 at noon, 10m is Closed and 20m is Good with its description |
| SpaceWeather.BestBandsText | solarstorm_scout/spaceweather.py:165-185 | the recommendation string is the comma-joined list of band names |
| SpaceWeather.BestBandsAreBands | solarstorm_scout/spaceweather.py:165-185 | it recommends 3 or 4 known bands in table order, and includes 80m exactly at night |
| SpaceWeather.BestBandsExamples | solarstorm_scout/spaceweather.py:173-185 | 14 UTC with foF2 9 and 02 UTC with foF2 5 give the documented strings |
| SpaceWeather.PropagationTierBands | solarstorm_scout/spaceweather.py:337-346 | Very Poor exactly when SFI <= 70; Excellent exactly when SFI > 150 and K < 3; a quiet field with SFI > 120 is at least Good; K >= 5 with SFI > 70 is Poor |
| SpaceWeather.PropagationTierExamples | solarstorm_scout/spaceweather.py:337-346 | sample inputs fall into Excellent, Fair and Very Poor |
| SpaceWeather.AuroraDescriptionTiers | solarstorm_scout/spaceweather.py:364-382 | either input alone can raise the description to Strong; Quiet exactly when K < 4 and power < 20 |
| SpaceWeather.XrayImpactByLetter | solarstorm_scout/spaceweather.py:385-407 | the impact depends only on the first letter of the class, and an empty class reads as class A |
| SpaceWeather.XrayClassBounds | solarstorm_scout/spaceweather.py:280-292 | the letter is one of A B C M X; magnitudes lie in [1,10) for B, C and M, are at least 1 for X and lie in (0,10) for A; a larger flux never gets a lower letter; the text starts with the letter |
| SpaceWeather.LastNoon | solarstorm_scout/spaceweather.py:227-230 | the reversed scan finds the latest "Noon" report, and none exists when it finds nothing |
| SpaceWeather.LatestSolarFlux | solarstorm_scout/spaceweather.py:225-233 | the scan plus fall-back returns the selected solar flux |
| SpaceWeather.SolarFluxSelection | solarstorm_scout/spaceweather.py:225-233 | no flux exactly for an empty feed; the latest Noon report's flux if there is one, otherwise the last entry's |
| SpaceWeather.AIndexFloor | solarstorm_scout/spaceweather.py:250-253 | the A-index is the floor of 3.3·K² (K = 3 gives 29), and for K in 1..9 the product is never a whole number |
| SpaceWeather.ReadFeeds | solarstorm_scout/spaceweather.py:208-316 | each field read from a feed holds that feed's value; a failed or empty feed leaves "N/A"; nothing is derived yet |
| SpaceWeather.DeriveMetrics | solarstorm_scout/spaceweather.py:318-355 | with a numeric flux, it sets foF2, absorption, MUF = 4·foF2, the tier (K defaulting to 2.0), the band table and the best bands, and keeps the readings |
| SpaceWeather.FetchSpaceWeatherData | solarstorm_scout/spaceweather.py:188-357 | the whole record: the readings from the feeds, and the derived metrics exactly when a solar flux was read |
| Formatter.CharLimit | solarstorm_scout/formatter.py:62 | the limit is 300 exactly for "bluesky" and 500 for every other platform |
| Formatter.EnsureCharLimit | solarstorm_scout/formatter.py:24-41 | the text passes unchanged exactly when it fits; otherwise the error carries both counts |
| Formatter.AbsorptionPercent | solarstorm_scout/formatter.py:121 | the percentage is "N/A" exactly when there is no absorption factor |
| Formatter.CollectBandLines | solarstorm_scout/formatter.py:150-153 | the loop produces one line per band present, in the fixed band order |
| Formatter.BandLinesBounded | solarstorm_scout/formatter.py:150-153 | there are never more lines than band names, and none without band data |
| Formatter.BandLinesAllPresent | solarstorm_scout/formatter.py:150-153 | when every band is present, line i is band i's line |
| Formatter.BandPostListsEveryBand | solarstorm_scout/formatter.py:150-153 | a table from calculate_band_conditions yields all ten lines in order |
| Formatter.SolarIndicesText | solarstorm_scout/formatter.py:108-139 | post 1 opens with its "SOLAR INDICES (1/5)" header and the SFI line, and ends with the hashtags |
| Formatter.FormatBandConditionsPost | solarstorm_scout/formatter.py:142-173 | the band post is its text under the character-limit guard |
| Formatter.TimeNoteWindows | solarstorm_scout/formatter.py:184-190 | peak daytime is exactly 10-16 UTC; low nighttime is before 6 or after 20; transitional otherwise |
| Formatter.BandRecommendationRules | solarstorm_scout/formatter.py:192-198 | "Try 80m/40m" exactly when the absorption text contains "High"; "Mid bands OK" exactly for "Moderate" without "High" |
| Formatter.BandRecommendationForLevel | solarstorm_scout/formatter.py:192-198 | on the absorption descriptions, the recommendation follows the level: High or Very High, Moderate, Low |
| Formatter.AbsorptionHelper | solarstorm_scout/formatter.py:200-204 | the condensed helper text is chosen exactly for the 300-character limit |
| Formatter.AbsorptionText | solarstorm_scout/formatter.py:176-216 | post 3 opens with its "D-REGION ABSORPTION (3/5)" header and the absorption description, and ends with the limit's helper and the hashtags |
| Formatter.AuroraPostTiers | solarstorm_scout/formatter.py:219-246 | "N/A" exactly when power or K is missing; the post's STRONG and QUIET tiers coincide with the aurora description's tiers |
| Formatter.PowerText | solarstorm_scout/formatter.py:247 | the power reads "N/A" exactly when it is missing, and otherwise ends in " GW" |
| Formatter.AuroraHelper | solarstorm_scout/formatter.py:249-253 | the condensed helper text is chosen exactly for the 300-character limit |
| Formatter.AuroraText | solarstorm_scout/formatter.py:219-268 | post 4 opens with its "AURORA FORECAST (4/5)" header and the aurora description, and ends with the limit's helper and the hashtags |
| Formatter.XrayPostImpact | solarstorm_scout/formatter.py:271-296 | the impact line depends only on the class letter; for a classified flux it follows the 1e-4/1e-5/1e-6 decades |
| Formatter.XrayHelper | solarstorm_scout/formatter.py:297-301 | the condensed helper text is chosen exactly for the 300-character limit |
| Formatter.XrayText | solarstorm_scout/formatter.py:271-317 | post 5 opens with its "X-RAY FLUX (5/5)" header and the current class, and ends with the limit's helper, the NOAA SWPC time stamp and the hashtags |
| Formatter.ThreadSlots | solarstorm_scout/formatter.py:64-103 | the thread holds the five texts in order; posts 1-2 have no image; posts 3-5 carry the D-RAP map, the aurora map and the chart marker with their alt texts |
| Formatter.GuardThreadOutcome | solarstorm_scout/formatter.py:64-105 | the thread is returned unchanged exactly when all five posts fit (the length check of lines 24-41); otherwise the error names the first post that overflows |
| Formatter.AssembleThread | solarstorm_scout/formatter.py:64-105 | building the posts one at a time, each behind the guard, gives the guarded thread |
| Formatter.FormatThreadPosts | solarstorm_scout/formatter.py:44-105 | format_thread_posts is the guarded five-post layout at the platform's limit |
| Formatter.GetPostStats | solarstorm_scout/formatter.py:320-348 | the platform, limit and count are filled in, with one entry per post giving its length and remaining characters |
| Formatter.GuardedStats | solarstorm_scout/formatter.py:320-348 | every post of a thread that passed the guard has a non-negative remaining count |
| Configuration.MaskSensitiveValue | solarstorm_scout/config.py:17-37 | non-sensitive values pass unchanged; masked values are at most 7 characters |
| Configuration.MaskShowsOnlyEnds | solarstorm_scout/config.py:35 | a sensitive value longer than 4 characters is shown as its first two characters, "...", and its last two |
| Configuration.MaskRevealsAtMostFour | solarstorm_scout/config.py:32-35 | two values that share those ends, or are both short, mask the same |
| Configuration.SensitivityIgnoresCase | solarstorm_scout/config.py:30-32 | whether a key is sensitive does not depend on its case |
| Configuration.SensitiveByKeyword | solarstorm_scout/config.py:28-32 | any key containing a sensitive keyword is masked |
| Configuration.MaskExamples | solarstorm_scout/config.py:17-37 | a password, a URL and a four-character token mask as "ab...kl", "ht...al" and "***" |
| Configuration.PublicKeyExample | solarstorm_scout/config.py:37 | LOG_LEVEL is logged as it is |
| Configuration.LoadDotenv | solarstorm_scout/config.py:68-80 | the process environment wins; .env only fills keys that are missing; no other key appears |
| Configuration.Resolve | solarstorm_scout/config.py:93-139 | a value comes from the environment, from the default, or from a Doppler secret |
| Configuration.ResolvePriority | solarstorm_scout/config.py:110-139 | a non-empty Doppler secret overrides; otherwise the environment value, then the default |
| Configuration.ResolveWithoutDoppler | solarstorm_scout/config.py:108-139 | without Doppler, get is the environment lookup with its default |
| Configuration.DopplerOverrideOnlyNonEmpty | solarstorm_scout/config.py:117-137 | Doppler never supplies an empty value, and supplies nothing when project or config is unset or the fetch fails |
| Configuration.ResolveNoneIff | solarstorm_scout/config.py:93-139 | get returns None exactly when there is no default, no environment value and no Doppler override |
| Configuration.BoolValueProperties | solarstorm_scout/config.py:141-157 | a present value is read case-insensitively against the truthy words, so "" and "no" are false whatever the default |
| Configuration.InvalidValueWarningMasks | solarstorm_scout/config.py:176-179 | the invalid-number warning (here for integers, and alike for floats at lines 198-201) shows a sensitive value only masked |
| Configuration.RequireValue | solarstorm_scout/config.py:203-219 | it fails exactly when get gives None, with the source's message; otherwise it returns get's value |
| Configuration.BlueskyConfig | solarstorm_scout/config.py:239-255 | it succeeds exactly when handle and password are both non-empty, and returns them |
| Configuration.MastodonConfig | solarstorm_scout/config.py:257-276 | it succeeds exactly when the URL and token are both non-empty, and returns them with the optional client id and secret |
| Configuration.PlatformsValidIff | solarstorm_scout/config.py:278-307 | the configuration is valid exactly when some enabled platform has complete credentials |
| Configuration.EmptyValueRequiredButIncomplete | solarstorm_scout/config.py:217-252 | an empty handle satisfies require (line 217) but makes the Bluesky config incomplete (line 252) |
| Configuration.Config.constructor | solarstorm_scout/config.py:58-91 | .env is merged under the environment; Doppler is on exactly when a token is present and the client starts |
| Configuration.Config.Get | solarstorm_scout/config.py:93-139 | returns the resolved value and logs each Doppler warning at most once |
| Configuration.Config.ConsultDoppler | solarstorm_scout/config.py:110-137 | returns the Doppler override and sets the one-shot warning flags |
| Configuration.Config.WarnScopeOnce | solarstorm_scout/config.py:118-121 | the missing-project warning is logged only if it was not logged before, and its flag is then set |
| Configuration.Config.WarnFetchOnce | solarstorm_scout/config.py:132-136 | the failed-listing warning is logged only if it was not logged before, and its flag is then set |
| Configuration.Config.RepeatLookupSilent | solarstorm_scout/config.py:118-136 | once one lookup has run, a second lookup logs no Doppler warning |
| Configuration.Config.LogOnce | solarstorm_scout/config.py:119-136 | it appends one line, and the counts of each warning kind grow only by that line |
| Configuration.Config.GetBool | solarstorm_scout/config.py:141-157 | get_bool is the truthy-word reading of the resolved value |
| Configuration.Config.GetNumber | solarstorm_scout/config.py:159-201 | get_int and get_float fall back to the default, and warn, exactly when a present value does not parse |
| Configuration.Config.GetPostingInterval | solarstorm_scout/config.py:221-229 | the interval is POSTING_INTERVAL_HOURS read as a float with default 1.5; the one-shot Doppler flags and warnings, and the invalid-float warning, are as for get_float |
| Configuration.Config.Require | solarstorm_scout/config.py:203-219 | require, on the object's current sources |
| Configuration.Config.IsBlueskyEnabled | solarstorm_scout/config.py:231-233 | BLUESKY_ENABLED read as a boolean, default false |
| Configuration.Config.IsMastodonEnabled | solarstorm_scout/config.py:235-237 | MASTODON_ENABLED read as a boolean, default false |
| Configuration.Config.GetBlueskyConfig | solarstorm_scout/config.py:239-255 | the Bluesky credentials or the incomplete-configuration error |
| Configuration.Config.GetMastodonConfig | solarstorm_scout/config.py:257-276 | the Mastodon credentials or the incomplete-configuration error |
| Configuration.Config.ValidateConfig | solarstorm_scout/config.py:278-307 | validate_config is true exactly when an enabled platform is fully configured |
| Social.SegmentMessage | solarstorm_scout/social.py:106-124 | the rich text spells the message back exactly; each `#\w+` hashtag becomes a tag part holding the text after `#`, with the text between tags as plain parts |
| Social.SentCount | solarstorm_scout/social.py:100-184 | posts are sent in order up to the first failure: no more than the thread holds, and all of them exactly when nothing fails |
| Social.BlueskyPoster.constructor | solarstorm_scout/social.py:49-60 | a new poster keeps its credentials, has no client, is not signed in and has posted nothing |
| Social.BlueskyPoster.Authenticate | solarstorm_scout/social.py:62-78 | the client exists afterwards, and the poster is signed in exactly when login succeeds |
| Social.BlueskyPoster.PostThread | solarstorm_scout/social.py:80-184 | unauthenticated: nothing posted, returns false. Otherwise posts are appended in order until the first failure, each replying to the previous post and to the thread's root with its image when ready, and returns true exactly when all were sent |
| Social.MastodonPoster.constructor | solarstorm_scout/social.py:190-211 | a new poster keeps its settings, has no client and has posted nothing |
| Social.MastodonPoster.Authenticate | solarstorm_scout/social.py:213-243 | app credentials are used exactly when id and secret are both non-empty; the poster is signed in exactly when verification succeeds |
| Social.MastodonPoster.PostThread | solarstorm_scout/social.py:245-328 | unauthenticated: nothing posted, returns false. Otherwise statuses are appended in order until the first failure, each replying to the previous one, and it returns true exactly when all were sent. Exactly one media is uploaded per obtained image, in post order, including the failing post's image, which is uploaded before its status_post raises. Each status cites the upload made for its own post. |
| Social.MastodonPoster.UploadImage | solarstorm_scout/social.py:271-310 | an obtained image adds one media entry described by the alt text, and its id is the status's only media id; otherwise nothing is uploaded and the list is empty |
| Social.Attempted | solarstorm_scout/social.py:265-313 | the posts whose turn began: the sent ones plus the failing one, never more than the thread holds |
| Social.UploadedAltText | solarstorm_scout/social.py:299-302 | post i's upload sits right after the uploads of the posts before it, and its description is the post's alt text |
| Social.MastodonMediaDescribed | solarstorm_scout/social.py:299-316 | a status that cites media cites an entry uploaded by this thread, not an earlier one, and that entry is described by the post's alt text |
| Social.NamesOf | solarstorm_scout/social.py:406-408 | one name per registered platform, in order |
| Social.CallFormatThreadPosts | solarstorm_scout/formatter.py:44 | a call with one positional argument formats for "bluesky" and one with two for the given platform; no argument, or more than two, raises TypeError with CPython's message |
| Social.ThreeArgumentCallRaises | solarstorm_scout/social.py:392 | the three-argument call of post_to_all raises TypeError: "takes from 1 to 2 positional arguments but 3 were given" |
| Social.Accounts | solarstorm_scout/social.py:388 | one (name, sign-in state) pair per registered platform, in order |
| Social.Reports | solarstorm_scout/social.py:388-398 | one report per platform: its name, and success exactly when its thread formatted, it is signed in and the whole thread was sent |
| Social.Failures | solarstorm_scout/social.py:396-398 | one failed report per platform name |
| Social.TallyEntries | solarstorm_scout/social.py:386-400 | the results dict has exactly the reported names as keys, and each name's last report wins |
| Social.TallyAllFalse | solarstorm_scout/social.py:396-398 | if every report failed, every entry of the results is false |
| Social.SocialMediaManager.constructor | solarstorm_scout/social.py:334-335 | a new manager has no platforms |
| Social.SocialMediaManager.PlatformCount | solarstorm_scout/social.py:402-404 | the count equals the number of registered names |
| Social.SocialMediaManager.AddBluesky | solarstorm_scout/social.py:337-348 | adds a fresh signed-in Bluesky poster with the given credentials exactly when login succeeds, and otherwise changes nothing; no two registered platforms share a poster |
| Social.SocialMediaManager.AddMastodon | solarstorm_scout/social.py:350-367 | adds a fresh signed-in Mastodon poster exactly when verification succeeds, and otherwise changes nothing; no two registered platforms share a poster |
| Social.SocialMediaManager.PostToAllAsWritten | solarstorm_scout/social.py:369-400 | as written, every platform's entry is false, because the formatter call raises |
| Social.SocialMediaManager.PostToAll | solarstorm_scout/social.py:369-400 | with the intended two-argument call, each platform's entry is its report and sign-in states are left unchanged. Each poster's feed, or its statuses and media, grows by exactly its own thread up to the first failure, and is unchanged when the thread did not format or the poster is not signed in. |
| Social.PostEach | solarstorm_scout/social.py:388-398 | the loop records every platform's report under its name and leaves each poster with its own thread appended and its sign-in state unchanged |
| Social.PostStep | solarstorm_scout/social.py:389-398 | one iteration: the platform's entry is set to its report; only that platform's poster changes, by its own thread |
| Social.ThreadLimitOfPlatform | solarstorm_scout/social.py:391-392 | a Bluesky platform gets the 300-character thread and every other platform the 500-character one |
| Social.ThreadOfPlatform | solarstorm_scout/social.py:391 | the thread a platform gets is the Bluesky or the Mastodon layout, chosen by its name |
| Social.PostFormatted | solarstorm_scout/social.py:392-398 | posting one platform's formatted thread succeeds exactly as its report says. That poster's feed or statuses grow by its posted thread, and every other poster, and every sign-in state, is unchanged. |
| ChartRenderer.PeriodFile | solarstorm_scout/chart_renderer.py:34-41 | the period file is always one of the four GOES files |
| ChartRenderer.PeriodFileIgnoresCase | solarstorm_scout/chart_renderer.py:41 | the period is looked up lower-cased |
| ChartRenderer.PeriodFileKeys | solarstorm_scout/chart_renderer.py:34-41 | each file is reached from its key; any period that is not 1d, 3d or 7d falls back to 6-hour |
| ChartRenderer.PeriodFileUpperCase | solarstorm_scout/chart_renderer.py:41 | "1D" and "7D" select the day files; an unknown period such as "12h" selects 6-hour |
| ChartRenderer.XrayJsonUrl | solarstorm_scout/chart_renderer.py:42 | the URL is on the GOES primary JSON path and names the period file |
| ChartRenderer.RecordEffect | solarstorm_scout/chart_renderer.py:60-82 | an entry that is not usable leaves the buckets unchanged: no parseable time, a null field, or flux <= 0. Otherwise its time gets a bucket, and only the channel its energy names is set. |
| ChartRenderer.BucketKeys | solarstorm_scout/chart_renderer.py:58-82 | the buckets are keyed by exactly the usable entries' times |
| ChartRenderer.BucketPositive | solarstorm_scout/chart_renderer.py:67-68 | every recorded flux is positive |
| ChartRenderer.LastShortWins | solarstorm_scout/chart_renderer.py:75-76 | a time's short-channel flux is the last short-channel entry for that time |
| ChartRenderer.KeyOrderListsKeys | solarstorm_scout/chart_renderer.py:71-72 | the insertion order lists every bucket key exactly once |
| ChartRenderer.BucketEntries | solarstorm_scout/chart_renderer.py:58-82 | the loop stops with an escaping error exactly when some entry has a JSON null that raises TypeError or AttributeError, which `except (ValueError, KeyError)` does not catch; otherwise it builds the buckets and their insertion order |
| ChartRenderer.SortedTimestamps | solarstorm_scout/chart_renderer.py:85 | sorted(keys) is strictly ascending and holds exactly the same times |
| ChartRenderer.XraySeries | solarstorm_scout/chart_renderer.py:34-91 | a series is produced exactly when the fetch answers 200, no entry raises an uncaught error, and some entry is usable; an escaping error returns None through the outer handler. The series has ascending timestamps (the bucket keys) with the short and long fluxes aligned to them. Its label index is `len(timestamps) // 20`, as at line 108, and falls inside the list. |
| Demo.Chunks | solarstorm_scout/demo.py:57-59 | a line always prints at least one row |
| Demo.ChunksRoundTrip | solarstorm_scout/demo.py:57-60 | the pieces of a wrapped line put together give the line back |
| Demo.ChunksShape | solarstorm_scout/demo.py:57-60 | pieces are at most 66 characters, all but the last exactly 66; a line needs one row, or ceil(length/66) rows if longer |
| Demo.LineRowsShape | solarstorm_scout/demo.py:57-60 | one line prints one row per piece: the full pieces unpadded, the last piece padded, every row exactly 66 wide |
| Demo.WrapLine | solarstorm_scout/demo.py:57-60 | the while loop that cuts 66 characters at a time prints exactly the rows of its line |
| Demo.WrapText | solarstorm_scout/demo.py:55-60 | the loop over the lines of the text prints each line's rows, line after line |
| Demo.PaddingKeepsPiece | solarstorm_scout/demo.py:60 | padding keeps the piece and adds only spaces up to 66 |
| Demo.TextRowsWidth | solarstorm_scout/demo.py:55-60 | every row of a preview is 66 characters |
| Demo.TextRowsCount | solarstorm_scout/demo.py:55-60 | a text of n lines prints at least n rows |
| Demo.PrintPost | solarstorm_scout/demo.py:35-62 | length and remaining add up to the limit, and remaining is negative exactly when the text is too long. The image line appears exactly for a non-empty URL and shows exactly its first 50 characters, or the whole URL when shorter. The rows are the wrapped lines of the text. |

## Findings

| source | as written | input that shows it | evidently intended | confidence | as-written member | corrected member |
|---|---|---|---|---|---|---|
| solarstorm_scout/social.py:392 | `post_to_all` calls `format_thread_posts(data, platform, include_hamradio)`, but that function takes two parameters (`formatter.py:44`). The TypeError is caught at 396-398, so every platform is reported as failed and nothing is posted. | any manager with at least one authenticated platform, and any data | call `format_thread_posts(data, platform)`, post the thread, and record whether posting succeeded | high for the arity mismatch; not executed | Social.SocialMediaManager.PostToAllAsWritten, Social.ThreeArgumentCallRaises | Social.SocialMediaManager.PostToAll |

## Left out

- Network I/O is not modelled: the NOAA requests, the GOES fetch and image
  downloads. Each feed is an input value (`Feeds`, `GoesResponse`), with `None`
  for a failed or non-200 request.
- The JSON and text parsing is not modelled. The aurora power is taken as
  already parsed from the nowcast text (spaceweather.py:303-314). On each chart
  entry, the parsing of the ISO time and of the flux as a float is an `Option`,
  and flags mark a JSON null in the time, flux or energy field.
- Chart entries that are not JSON objects, and fields of other wrong JSON
  types such as a number for `time_tag`, are not modelled. Only nulls are.
- Clocks are parameters. The source reads the time separately in several
  places; the model passes one `now`, or `utcHour`, to all of them.
- Floating point is modelled as exact reals. NaN and infinite fluxes are not
  modelled.
- Python's `{:.1f}` rendering is modelled by `FormatTenths`, an exact decimal
  rendering that may differ from Python's in the last digit.
- Python's `str(float)` is modelled by `FloatText`, which always prints
  fixed-point decimals (at most 17 places). Python's exponent notation is not
  modelled. `str()` uses it below 1e-4 and from 1e16, so a flux of 1e-5 prints
  as `1e-05` in Python, and `FloatText` renders it differently, not just in the
  last digit. Otherwise the two may differ in the last digit.
- The emoji prefixes of `spaceweather.py` are kept as opaque string constants.
- `\w` in the hashtag pattern, and `lower()`/`upper()`, are modelled on ASCII
  only.
- Social.BlueskyPoster.PostThread: the SDK calls are not modelled.
  - `send_post` and `status_post` either succeed or fail, and the first failure
    is a parameter (`failAt`). Server identifiers are modelled as positions in
    the feed.
  - Whether an image can be attached (downloaded, chart generated, upload
    succeeded) is the predicate `imageReady`. A failed image drops only the
    image, as in the source.
- Social.MastodonPoster.PostThread: the same abstraction as Bluesky. The
  temporary file used for uploads is not modelled.
- Social.SocialMediaManager.PostToAll: does not model the session argument or
  logging. It does model each poster's new feed or statuses, reply chains
  included, through each poster's `PostThread`.
- Configuration.Config.constructor: the Doppler client answer is fixed when the object is
  built (a `DopplerResponse`). The source fetches it on every `get`.
- Configuration.Config.Get: only the logged warnings the source emits once, and
  the invalid-number warning, are recorded. Info, debug and error logging are
  not. `setup_logging` is not part of this model.
- Configuration.Config.GetNumber: `int()`/`float()` parsing is a parameter
  `parse`.
- The chart drawing in `plot_xray_flux` (chart_renderer.py:93-145) is not
  modelled: matplotlib styling, the threshold lines and the PNG buffer. Only
  the data preparation is, plus the index of the first threshold label
  (chart_renderer.py:108).
- `demo.py` outside `print_post` is not modelled, nor the preview box's frame
  characters and header lines. Only the length line, the image line and the
  wrapped text rows are.
- `math.sqrt` is not computed. The foF2 estimate is characterised as the
  non-negative root of `0.49·max(sfi, 50)`, and its rounding to one decimal is
  computed exactly on integers.
- `main.py`, `setup_logging`, dotenv file discovery and the SDK imports are not
  part of this model. They are orchestration and foreign libraries.
