# REST API detector — a Dafny model

Print My Blog works from a site's REST API. Given the site a user names, `RestApiDetector` finds
that site's name, its description and the base URL of its WordPress REST API. It also records
whether the site is the local WordPress installation.

This project models the class `mnelson4\RestApiDetector\RestApiDetector`. It covers its constructor
together with `getSiteInfo`, `getSelfHostedSiteInfo`, `fetchWpJsonRootInfo` and
`getWordPressComSiteInfo`, and the fields they set (`site`, `name`, `description`, `rest_api_url`,
`local`). Detection has three routes:

- **Local.** An empty site means the running WordPress site. No request is sent.
- **Self-hosted.** The site's homepage is fetched and searched for the
  `<link rel='https://api.w.org/' href='…' />` discovery tag. The captured href is the REST API
  index. The index is fetched and classified: not JSON, an error object, name and description,
  or unexpected.
- **WordPress.com.** When the homepage has no discovery tag, the index is fetched from
  `https://public-api.wordpress.com/rest/v1.1/sites/` followed by the site with its schemes removed.

The model is purely functional. Everything the class takes from WordPress or the network is part
of a `Platform` value:

- the HTTP GET (`wp_remote_get`), as a function from URL to transport error or body;
- `json_decode`, as a function from text to a JSON value, where invalid text gives null;
- `sanitize_text_field`, as a function on strings;
- `get_bloginfo` and `get_rest_url`, as a record.

Each stage returns a `Traced` value: its outcome together with the URLs it requested. This lets
the contracts say which URLs were fetched and which were not. A thrown `RestApiDetectorError` is a
`Failure` carrying the `WP_Error`'s code and message. PHP's `false` sentinel from the self-hosted
probe is `NotSelfHosted`.

Files:

| file | contents |
|---|---|
| `wrappers.dfy` | `Option` and `Result` |
| `json.dfy` | decoded JSON values, `is_array` and single-key `isset` |
| `php_strings.dfy` | `strpos` as a substring test, `str_replace`, `empty()`, and WordPress's `trailingslashit` |
| `discovery_marker.dfy` | the `preg_match` of the discovery tag: a declarative leftmost-longest specification and an executable search proved equal to it |
| `wordpress.dfy` | the `Platform` oracles |
| `rest_api_detector.dfy` | the detector's stages and `Detect` |
| `detector_properties.dfy` | lemmas relating the stages, and whole-detection scenarios |

Where the class's documentation and its code differ, the model follows the code:

- The site stored in the detector keeps the form the user gave it, with the scheme added when
  missing. It is neither sanitised nor slash-terminated. Only the URL that is probed is.
- The WordPress.com URL is built from the slash-terminated site, so it ends in `/`
  (`…/sites/example.com/`).
- PHP's `empty()` holds for the string `"0"`, so a site named `0` takes the local route.
- The scheme test is a substring test (`strpos`), not a prefix test. Removing the schemes is a
  single left-to-right pass per needle, so a domain can still contain `http://` afterwards.
- The capture group of the discovery pattern is greedy, and `.` stops at a line break. When
  another single-quoted tag closing in `' />` follows the discovery tag on the same line, the
  capture runs on through that tag (`DetectorProperties.GreedyCaptureSpansTags`).

## Model

Source paths are relative to the repository root; `RestApiDetector.php` stands for
`includes/vendor/mnelson4/RestApiDetector/RestApiDetector.php`.

| member | source | states |
|---|---|---|
| RestApiDetector.FetchIndex | includes/vendor/mnelson4/RestApiDetector/RestApiDetector.php:107-136 | Exactly the index URL is requested. A transport error is rethrown with its own code and message. A decoded body that is not an array fails with `no_json`. An array with non-null `code` and `message` fails with those values verbatim. Success happens iff the body is an array with no error pair but with non-null `name` and `description`, and a success reports those values with the URL followed by `wp/v2/`. Anything else fails with `unknown_response`. |
| RestApiDetector.SelfHosted | includes/vendor/mnelson4/RestApiDetector/RestApiDetector.php:85-105 | The homepage is always requested first. The result is the not-self-hosted sentinel iff the homepage answered and the discovery pattern does not match; then nothing else is fetched. A transport error fails at once. A match fetches exactly the captured href next and returns that fetch's outcome. A success is read from the last URL requested. |
| RestApiDetector.WordPressCom | includes/vendor/mnelson4/RestApiDetector/RestApiDetector.php:161-167 | Exactly one URL is requested: the WordPress.com sites API prefix followed by the site with `http://` and `https://` removed. The index fetch's outcome is returned unchanged. |
| RestApiDetector.AddMissingScheme | includes/vendor/mnelson4/RestApiDetector/RestApiDetector.php:54-57 | The result always names a scheme. An input naming either scheme anywhere is kept as is; any other input gets `http://` in front. |
| RestApiDetector.ProbeUrl | includes/vendor/mnelson4/RestApiDetector/RestApiDetector.php:59 | The URL that is probed is non-empty and ends in `/`. |
| RestApiDetector.DetectRemote | includes/vendor/mnelson4/RestApiDetector/RestApiDetector.php:59-73 | The probe URL is requested first, and at most two URLs are requested in all. A success stores the site as given, not sanitised or slashed, with `local` false. WordPress.com is consulted only on the not-self-hosted sentinel, and its outcome is then final. Every other probe outcome, error or success, is the detection's outcome. |
| RestApiDetector.Detect | includes/vendor/mnelson4/RestApiDetector/RestApiDetector.php:31-53 | An empty site (none, `""` or `"0"`) sends no request and reports the local name, description, URL and REST URL. A success is local iff the site was empty. No detection sends more than two requests. A non-empty site gets its scheme and takes the remote route. |
| DiscoveryMarker.PregMatch | includes/vendor/mnelson4/RestApiDetector/RestApiDetector.php:93-99 | The result is no-match iff no position of the body starts a match of the discovery pattern. A match has exactly two groups, so the count guard never fires. Group 1 is a capture the pattern admits at some position. |
| DiscoveryMarker.CaptureAt | includes/vendor/mnelson4/RestApiDetector/RestApiDetector.php:95 | At a given position, either the pattern matches with the returned capture and no longer capture matches there, or the pattern does not match there at all. |
| DiscoveryMarker.FirstMatch | includes/vendor/mnelson4/RestApiDetector/RestApiDetector.php:93-98 | The returned hit is the first position from the start of the search where the pattern matches, with that position's capture. No position before it matches. No hit means no position from the start on matches. |
| DiscoveryMarker.LineEnd | includes/vendor/mnelson4/RestApiDetector/RestApiDetector.php:95 | The returned index is the first line break at or after the position, or the end of the body. This bounds what `.` can consume. |
| DiscoveryMarker.LastTail | includes/vendor/mnelson4/RestApiDetector/RestApiDetector.php:95 | The returned index is the last position in the range where the closing `' /` begins, and none follows it in the range. This is where greedy `.*` backtracks to. |
| DiscoveryMarker.FirstMatchIsLeftmostLongest | includes/vendor/mnelson4/RestApiDetector/RestApiDetector.php:93-98 | The executable search agrees with the declarative specification: its hit is the leftmost match with the longest capture. |
| DiscoveryMarker.LeftmostLongestUnique | includes/vendor/mnelson4/RestApiDetector/RestApiDetector.php:95 | At most one position and capture is leftmost-longest, so the capture `preg_match` returns is determined by the body. |
| DiscoveryMarker.NoHeadLiteralNoMarker | includes/vendor/mnelson4/RestApiDetector/RestApiDetector.php:93-102 | A body that does not contain the literal `link rel='https://api.w.org/' href='` has no match, so the probe reports the not-self-hosted sentinel. |
| PhpStrings.ContainsIffOccurs | includes/vendor/mnelson4/RestApiDetector/RestApiDetector.php:55 | The recursive substring test holds iff the needle occurs at some index. This is `strpos(...) !== false`. |
| PhpStrings.RemoveAllAbsent | includes/vendor/mnelson4/RestApiDetector/RestApiDetector.php:162 | After one pass of `str_replace` with a needle absent from the string, the string is unchanged. |
| PhpStrings.RemoveAllKeepsPrefix | includes/vendor/mnelson4/RestApiDetector/RestApiDetector.php:162 | When no position of a prefix starts an occurrence of the needle in the combined string, `str_replace` keeps the prefix unchanged in front of its result on the rest. |
| PhpStrings.StripSchemesOfUrl | includes/vendor/mnelson4/RestApiDetector/RestApiDetector.php:162 | For a host naming no scheme, removing `http://` and `https://` from `http://` or `https://` followed by the host gives back exactly the host. |
| PhpStrings.Untrailingslashit | includes/vendor/mnelson4/RestApiDetector/RestApiDetector.php:59 | The result is a prefix of the input that does not end in a slash or backslash. Everything removed is a slash or backslash. |
| PhpStrings.Trailingslashit | includes/vendor/mnelson4/RestApiDetector/RestApiDetector.php:59 | The result ends in exactly one `/`. What precedes it is a prefix of the input, and the input beyond that prefix is all slashes and backslashes. |
| PhpStrings.TrailingslashitIdempotent | includes/vendor/mnelson4/RestApiDetector/RestApiDetector.php:59 | Slash-terminating twice is the same as once. |
| DetectorProperties.AddMissingSchemeIdempotent | includes/vendor/mnelson4/RestApiDetector/RestApiDetector.php:54-57 | Adding the missing scheme to a site that already had it added changes nothing. |
| DetectorProperties.ErrorShapeWins | includes/vendor/mnelson4/RestApiDetector/RestApiDetector.php:120-131 | An index carrying both the error pair and the site pair is an error, since the error test comes first. |
| DetectorProperties.TransportErrorIsFinal | includes/vendor/mnelson4/RestApiDetector/RestApiDetector.php:85-89 | A transport error on the homepage is the detection's error, and only the homepage was requested. WordPress.com is never tried. |
| DetectorProperties.MarkerDecidesRoute | includes/vendor/mnelson4/RestApiDetector/RestApiDetector.php:63-104 | With no discovery match, the detection is the WordPress.com index outcome after exactly two requests. With one, it is the outcome of fetching the captured href, unchanged, as the second and last request. |
| DetectorProperties.SuccessReadFromLastIndex | includes/vendor/mnelson4/RestApiDetector/RestApiDetector.php:125-130 | A remote success has the name and description of the index requested last, and a REST API URL equal to that index URL followed by `wp/v2/`. |
| DetectorProperties.DependsOnlyOnRequested | includes/vendor/mnelson4/RestApiDetector/RestApiDetector.php:43-74 | Any network that answers the requested URLs the same way gives the same detection. The detector reads nothing else from the network. |
| DetectorProperties.DiscoveryLinkCaptured | includes/vendor/mnelson4/RestApiDetector/RestApiDetector.php:94-95 | A homepage whose discovery tag stands on a line of its own, with no earlier occurrence of the pattern's opening literal, yields that tag's href exactly as the capture. This holds whatever characters other than a line break the href holds. |
| DetectorProperties.GreedyCaptureSpansTags | includes/vendor/mnelson4/RestApiDetector/RestApiDetector.php:95 | When a single-quoted shortlink tag follows the discovery tag on the same line, the capture is the href followed by the text up to the shortlink's closing quote. |
| DetectorProperties.ProbeFollowsLinkTag | includes/vendor/mnelson4/RestApiDetector/RestApiDetector.php:93-104 | A homepage that is just the discovery tag leads to fetching its href, with exactly the homepage and the href requested. |
| DetectorProperties.SchemelessHost | includes/vendor/mnelson4/RestApiDetector/RestApiDetector.php:54-59 | A bare host is stored as `http://` plus the host and probed at that URL followed by `/`. |
| DetectorProperties.SelfHostedScenario | includes/vendor/mnelson4/RestApiDetector/RestApiDetector.php:43-131 | For a bare host whose homepage links an index with a name and description, detection succeeds with the stored `http://` host, that name and description, the href followed by `wp/v2/`, and `local` false. The homepage and the href are requested, in that order. |
| DetectorProperties.WordPressComScenario | includes/vendor/mnelson4/RestApiDetector/RestApiDetector.php:43-74 | For a bare host whose homepage has no discovery tag, the WordPress.com index at `…/sites/<host>/` is requested second. Its name and description are reported, with that URL followed by `wp/v2/` as the REST API URL. |
| DetectorProperties.RemoteErrorExample | includes/vendor/mnelson4/RestApiDetector/RestApiDetector.php:120-124 | The index's own `rest_no_route` error is forwarded with its code and message. |
| DetectorProperties.NotJsonExample | includes/vendor/mnelson4/RestApiDetector/RestApiDetector.php:114-119 | A body that does not decode to an array is reported as `no_json`. |

## Left out

- `sendHttpGetRequest` (lines 174-184) is the `http` oracle. Its timeout, disabled TLS verification and user agent are not modelled. The HTTP status is not inspected, as in the source, so a 404 page is a body like any other.
- `json_decode`, `sanitize_text_field`, `wp_remote_retrieve_body`, `get_bloginfo` and `get_rest_url` are WordPress or PHP functions outside this class. They are oracles or fields of `Platform`.
- `trailingslashit` comes from WordPress core, which is not part of this model. It is modelled with WordPress's definition: strip trailing `/` and `\`, then append `/`.
- Translation of the two error messages through `__()` is left out. The model carries the English strings.
- `guessSelfHostedSiteInfo` (lines 146-150) is never called; its only call site is commented out.
- `isInitialized`, `setInitialized` and the remaining getters and setters only read or write the fields. `Detect` returns the final values of those fields.
- `RestApiDetectorError` is not part of this model beyond the code and message it carries.
- JSON numbers are modelled as reals. The detector only tests them for being non-null.
- DiscoveryMarker.PregMatch: the whole-match group 0 is not stated in the contract, only that there are two groups and what group 1 is. The detector never reads group 0.
- The regex is modelled for this one pattern, not as a general PCRE engine. The `<` and `>` around the pattern are PCRE delimiters, so they are not part of what is matched.
