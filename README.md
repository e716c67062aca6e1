# linkify-tracking, modelled in Dafny

This Dafny model covers the `LinkifyTracking` class of linkify-tracking. The class
recognises parcel tracking numbers of five carriers and makes links of them. Its carrier
table lists DHL, FedEx, UPS, USPS and Royal Mail, in that order. Each carrier has a label,
a URL template with one `%s`, and one or more regular expressions. The class has three
operations:

- `getLinkData(tn)`: tries the carriers in order and, inside a carrier, its patterns in
  order. The first pattern whose leftmost match is all of `tn` decides the carrier. The
  result is the carrier's label and its URL template filled with `rawurlencode(tn)`.
  Without such a pattern the result is `null`. `getLinkUrl(tn)` is the URL part of that
  result, or `null`.
- `linkify(content)`: runs one `preg_replace_callback` pass per (carrier, pattern), in
  table order. Each pass replaces every non-overlapping match in the current text, left to
  right, by that carrier's link, and the next pass works on the result.
- `generateHtmlLink(carrier, tn)`: puts the tracking URL under `href`, merges in the
  caller's `linkAttributes`, writes each attribute as ` name="value"`, trims the result
  and wraps it as `<a ...>tn</a>`.

The model is split into these modules:

- `Text`: byte strings and PHP's `trim`.
- `Regex`: a backtracking matcher for the regular-expression constructs the table uses,
  plus `preg_match`'s leftmost search.
- `UrlEncode`: `rawurlencode` as section 2.1 of RFC 3986 describes percent-encoding, with
  the unreserved set of section 2.3, and its inverse.
- `Template`: `sprintf` for formats whose conversions are all `%s`.
- `Carriers`: the table, pattern by pattern.
- `RoyalMailRules`: what the Royal Mail pattern accepts and refuses, for every subject.
- `Classify`: `getLinkData` and `getLinkUrl`.
- `Html`: `generateHtmlLink`, an imperative method with its loop.
- `Linkify`: `linkify`, an imperative method with its nested loops.
- `Samples`, `Traces`, `Examples`: the classifier on concrete numbers. `Traces` holds the
  step-by-step matcher runs that `Examples` uses.

`linkify` is not idempotent. Its
passes see the markup that earlier passes wrote. The DHL number `8212345678` also fits
the third USPS pattern. So the USPS pass wraps it a second time, both after `AWB=` inside
the DHL link's `href` and in the link text. The model follows the code and claims no
idempotence.

## Model

| member | source | states |
|---|---|---|
| Text.Trim | src/LinkifyTracking.php:150 | the result is a contiguous slice of the input; every byte cut from either end is one of PHP's default trim bytes, and the result neither starts nor ends with one |
| Text.Lower | src/LinkifyTracking.php:19 | `/i` folding to lower case: the result is never an upper-case ASCII letter and has the same upper-case form as the input |
| Text.Upper | src/LinkifyTracking.php:19 | `/i` folding to upper case: the result is never a lower-case ASCII letter, and it is a word byte exactly when the input is |
| Text.CaseRoundTrip | src/LinkifyTracking.php:19 | folding to upper and then lower case is folding to lower case; each letter comes back from the other case unchanged |
| Text.TrimLeadingSpace | src/LinkifyTracking.php:143-150 | trimming text that starts with one space, then a non-trimmable byte, and ends non-trimmable removes exactly that space |
| Regex.Match | src/LinkifyTracking.php:19-43 | the backtracking matcher in PCRE's priority order (left alternative first, greedy counts, atomic lookahead); a match that starts at i ends between i and the end of the subject; lemmas MatchAdvances, RangeRun |
| Regex.Resume | src/LinkifyTracking.php:19-43 | the continuation after a sub-pattern; like Match, its end lies between i and the end of the subject |
| Regex.CaselessUpperRange | src/LinkifyTracking.php:19-43 | under `/i` a byte is in an upper-case letter range exactly when its upper-case form is |
| Regex.CaselessLowerRange | src/LinkifyTracking.php:43 | under `/i` a byte is in a lower-case letter range exactly when its lower-case form is |
| Regex.CaselessDigitRange | src/LinkifyTracking.php:19-43 | `/i` changes nothing for a digit range |
| Regex.RangeRun | src/LinkifyTracking.php:19-43 | n bytes of a range in a row: the exact count `[lo-hi]{n}` consumes them all and hands on to any continuation |
| Regex.MatchAt | src/LinkifyTracking.php:82 | a match that starts at i ends between i and the end of the subject |
| Regex.Search | src/LinkifyTracking.php:82 | `preg_match`'s leftmost match: the span found is a match, no match starts earlier, and there is no result exactly when no position matches |
| Regex.MatchAdvances | src/LinkifyTracking.php:19-43 | a pattern none of whose alternatives can match empty text never matches empty text, under any continuation |
| Regex.SearchNonEmpty | src/LinkifyTracking.php:113-119 | a match found for such a pattern is never empty, so each replace pass makes progress |
| UrlEncode.HexDigit | src/LinkifyTracking.php:94 | the hex digit for a value below 16 is an upper-case digit whose value is that number |
| UrlEncode.HexValueOfDigit | src/LinkifyTracking.php:94 | reading back a hex digit gives its value |
| UrlEncode.EncodeByte | src/LinkifyTracking.php:94 | an unreserved byte stays as it is; any other byte becomes `%` and two upper-case hex digits of its value |
| UrlEncode.RawUrlEncode | src/LinkifyTracking.php:94 | the output grows by two bytes per reserved input byte, and every output byte is unreserved or `%`; lemmas EncodeAppend, EncodeSingle |
| UrlEncode.EncodeAppend | src/LinkifyTracking.php:94 | `rawurlencode` works byte by byte: the encoding of a concatenation is the concatenation of the encodings |
| UrlEncode.EncodeSingle | src/LinkifyTracking.php:94 | the encoding of one byte is EncodeByte of it, so every escape in the output has upper-case digits |
| UrlEncode.RawUrlDecode | src/LinkifyTracking.php:94 | decoding never lengthens a string |
| UrlEncode.DecodeEncode | src/LinkifyTracking.php:94 | decoding undoes `rawurlencode` for every byte string |
| UrlEncode.EncodeIdentity | src/LinkifyTracking.php:94 | `rawurlencode` leaves a string unchanged if and only if every byte is unreserved |
| Template.Format | src/LinkifyTracking.php:94 | a template's format string is two bytes longer than its two sides; RenderIsSprintf and TemplateOf pin its content |
| Template.Render | src/LinkifyTracking.php:94 | the filled template is as long as its two sides and the argument together; RenderIsSprintf ties it to `sprintf` |
| Template.Sprintf | src/LinkifyTracking.php:94 | `sprintf` with `%s` conversions only: the output drops two bytes per conversion and adds the arguments; lemmas SprintfPlain, SprintfConversion, SprintfAppend |
| Template.SprintfPlain | src/LinkifyTracking.php:145 | a format without `%` has no conversions and prints as it is |
| Template.SprintfConversion | src/LinkifyTracking.php:94 | a lone `%s` prints its argument |
| Template.FormatAppend | src/LinkifyTracking.php:145-149 | well-formedness and the count of conversions add up over a concatenation of formats |
| Template.SprintfAppend | src/LinkifyTracking.php:145-149 | the two halves of a format take their own arguments, in order, and print next to each other |
| Template.RenderIsSprintf | src/LinkifyTracking.php:94 | a template without other `%` is a single-conversion format, and `sprintf` on it is the template filled in |
| Template.SprintfTwo | src/LinkifyTracking.php:145-149 | a format with two `%s` around plain text prints the two arguments in place |
| Template.TemplateOf | src/LinkifyTracking.php:138 | every format with one `%s` is a valid template whose format string it is |
| Template.SprintfIsRender | src/LinkifyTracking.php:138 | every single-conversion format is such a template, and `sprintf` on it is its rendering |
| Carriers.Table | src/LinkifyTracking.php:15-45 | definition: the five carriers in source order, with their labels, URL templates and patterns; lemmas TableValid, TemplatesValid, Classify.TableDecision |
| Carriers.DhlPattern | src/LinkifyTracking.php:19 | definition; lemmas Traces.RunsOnAwb, Examples.DhlBeforeUsps |
| Carriers.FedExPattern | src/LinkifyTracking.php:24 | definition; lemmas Traces.RunsOnTwelve, Examples.FedExNumber |
| Carriers.UpsPattern | src/LinkifyTracking.php:29 | definition; lemmas Traces.RunsOnUps, Traces.RunsOnLed, Examples.UpsNumber |
| Carriers.UspsPattern1 | src/LinkifyTracking.php:35 | definition; lemmas Traces.RunsOnUsps, Examples.UspsNumber |
| Carriers.UspsPattern2 | src/LinkifyTracking.php:36 | definition; lemmas Traces.RunsOnUspsLk, Examples.UspsSecondForm |
| Carriers.UspsPattern3 | src/LinkifyTracking.php:37 | definition; lemmas Traces.RunsOnAwb, Examples.DhlBeforeUsps |
| Carriers.RoyalMailPattern | src/LinkifyTracking.php:43 | definition; lemmas RoyalMailRules.RejectsReserved, RoyalMailRules.AcceptsShape |
| Carriers.TableValid | src/LinkifyTracking.php:19-43 | no pattern of the built-in table can match the empty string |
| Carriers.TemplatesValid | src/LinkifyTracking.php:18-42 | every URL template of the table has its `%s` and no other `%` |
| RoyalMailRules.ReservedExactly | src/LinkifyTracking.php:43 | the lookahead's alternation matches at i exactly when the next two bytes are EA to EE or CP in either case |
| RoyalMailRules.RejectsReserved | src/LinkifyTracking.php:43 | no Royal Mail match starts at a reserved prefix, in either case |
| RoyalMailRules.AcceptsShape | src/LinkifyTracking.php:43 | at a word boundary, two letters of either case that are not a reserved prefix, nine digits and `GB` in either case, before a boundary, are matched in full |
| Classify.WholeMatch | src/LinkifyTracking.php:82-90 | definition: `preg_match` succeeds and `$matches[0]` is all of tn; lemma WholeMatchAtStart |
| Classify.WholeMatchAtStart | src/LinkifyTracking.php:82-90 | the leftmost match is all of tn exactly when the match at position 0 runs to the end |
| Classify.TrackingUrl | src/LinkifyTracking.php:94 | definition: the template filled with `rawurlencode(tn)`; lemmas TrackingUrlIsSprintf, UrlEndsWithNumber |
| Classify.TrackingUrlIsSprintf | src/LinkifyTracking.php:94 | for a valid template the URL is `sprintf` of the template's format string with the encoded number |
| Classify.FindFrom | src/LinkifyTracking.php:80-97 | the nested loops stop at a hit that no earlier (carrier, pattern) pair at or after the start hits, or report None when no pair at or after (ci, pi) hits |
| Classify.GetLinkData | src/LinkifyTracking.php:78-100 | null exactly when no pattern of any carrier matches all of tn; otherwise the label and URL of the first carrier, by its first pattern, that does |
| Classify.GetLinkUrl | src/LinkifyTracking.php:64-69 | null exactly when `getLinkData` is null, and otherwise its URL |
| Classify.FirstHitUnique | src/LinkifyTracking.php:80-96 | only one (carrier, pattern) pair can be the first hit |
| Classify.FirstHitDecides | src/LinkifyTracking.php:92-95 | the first hit's carrier and URL are the result, whatever later patterns would say |
| Classify.LaterCarriersIgnored | src/LinkifyTracking.php:80-97 | once a table classifies tn, carriers appended after it change nothing |
| Classify.MissesSkipped | src/LinkifyTracking.php:80-99 | carriers that do not match tn can be put in front of a table without changing the result |
| Classify.EmptyHasNoLink | src/LinkifyTracking.php:82-99 | with patterns that cannot match empty text, the empty string gets null |
| Classify.UrlEndsWithNumber | src/LinkifyTracking.php:94 | with templates that end in `%s`, the URL is a carrier's prefix followed by the encoded number, and for a number of unreserved bytes it ends with the number itself |
| Classify.PlainNumberUrl | src/LinkifyTracking.php:94 | for a number of unreserved bytes and a template ending in `%s`, the URL is the prefix followed by the number verbatim |
| Classify.TableDecision | src/LinkifyTracking.php:15-99 | on the built-in table, `getLinkData` is the decision list DHL, FedEx, UPS, the three USPS patterns, Royal Mail, then null |
| Html.Put | src/LinkifyTracking.php:136-141 | adding an attribute keeps the length when the name is present and adds one otherwise; the name is present afterwards |
| Html.PutNew | src/LinkifyTracking.php:136-141 | a new key is appended at the end |
| Html.PutExisting | src/LinkifyTracking.php:136-141 | an existing key keeps its place and takes the new value |
| Html.Merge | src/LinkifyTracking.php:136-141 | definition: `array_merge` of string-keyed arrays, one Put per key of the second; lemmas MergeFresh, MergeAppend, MergeReplacesFirst |
| Html.MergeFresh | src/LinkifyTracking.php:136-141 | merging attributes under names that do not occur yet appends them in order |
| Html.MergeAppend | src/LinkifyTracking.php:136-141 | merging a concatenation is merging its parts one after another |
| Html.LinkAttributes | src/LinkifyTracking.php:136-141 | definition: `href` with the tracking URL, merged with the configured attributes; lemmas LinkAttributesWithoutHref, MergeReplacesFirst |
| Html.LinkAttributesWithoutHref | src/LinkifyTracking.php:136-141 | without a caller `href`, the attributes are the tracking `href` followed by the caller's in order |
| Html.MergeReplacesFirst | src/LinkifyTracking.php:136-141 | a caller `href` takes the value but stays first, and the other attributes keep their order |
| Html.AttributeHtml | src/LinkifyTracking.php:145 | definition: one attribute's text; lemma AttributeHtmlIsSprintf |
| Html.AttributeHtmlIsSprintf | src/LinkifyTracking.php:145 | one attribute's text is `sprintf(' %s="%s"', name, value)` |
| Html.AttributesHtml | src/LinkifyTracking.php:143-146 | definition: the attributes' texts concatenated in order; lemmas AttributesHtmlAppend, AttributesHtmlEnd |
| Html.AttributesHtmlAppend | src/LinkifyTracking.php:143-146 | the attribute text of two lists together is the two texts concatenated |
| Html.AttributesHtmlEnd | src/LinkifyTracking.php:143-146 | non-empty attribute text always ends in `"` |
| Html.TrimAttributeHtml | src/LinkifyTracking.php:150 | trimming the attribute text removes only its leading space |
| Html.Anchor | src/LinkifyTracking.php:148-152 | definition: the anchor around the text with the trimmed attributes; lemmas AnchorIsSprintf, AnchorShape |
| Html.AnchorIsSprintf | src/LinkifyTracking.php:148-152 | the anchor is `sprintf('<a %s>%s</a>', trim(attributesHtml), text)` |
| Html.AnchorShape | src/LinkifyTracking.php:148-152 | the anchor is `<a `, the first attribute without its space, the others, `>`, the text and `</a>` |
| Html.Link | src/LinkifyTracking.php:134-153 | definition: the anchor of the attributes of LinkAttributes; lemmas LinkWithoutAttributes, LinkShape |
| Html.GenerateHtmlLink | src/LinkifyTracking.php:134-153 | the loop builds the attribute text of the merged attributes, and the method returns the link |
| Html.LinkWithoutAttributes | src/LinkifyTracking.php:136-152 | without caller attributes the link is exactly `<a href="URL">TN</a>` |
| Html.LinkShape | src/LinkifyTracking.php:136-152 | the link is `<a href="…"` with the tracking URL, or the caller's `href` if one is given, then the other attributes in order, then `>TN</a>` |
| Linkify.LinkLonger | src/LinkifyTracking.php:148-152 | a link is at least 8 bytes longer than its tracking number |
| Linkify.ReplaceFrom | src/LinkifyTracking.php:113-119 | definition: `preg_replace_callback` from a position on, each leftmost match replaced by its link; lemmas ReplaceFromLength, ReplaceAllFirst |
| Linkify.ReplaceAll | src/LinkifyTracking.php:113-119 | definition: one replace pass over the whole text; lemmas ReplaceAllUnchanged, ReplaceAllFirst |
| Linkify.ReplaceCallback | src/LinkifyTracking.php:113-119 | the replace loop produces the text with every non-overlapping match, left to right, replaced by its link |
| Linkify.ReplaceFromLength | src/LinkifyTracking.php:113-119 | a pass never shortens the text, and lengthens it exactly when there is a match |
| Linkify.ReplaceAllUnchanged | src/LinkifyTracking.php:113-119 | a pass leaves the text unchanged if and only if the pattern matches nowhere |
| Linkify.ReplaceAllFirst | src/LinkifyTracking.php:113-119 | the text before the first match is kept, the match becomes its link, and the search resumes right after the match |
| Linkify.ApplyPatterns | src/LinkifyTracking.php:112-120 | definition: a carrier's passes, one per pattern in order; lemmas ApplyPatternsUnchanged, ApplyPatternsLength |
| Linkify.ApplyPatternsUnchanged | src/LinkifyTracking.php:112-120 | a carrier's passes change nothing when none of its patterns matches |
| Linkify.ApplyPatternsLength | src/LinkifyTracking.php:112-120 | a carrier's passes never shorten the text, and lengthen it when one of its patterns matches |
| Linkify.ApplyCarriers | src/LinkifyTracking.php:111-121 | definition: the passes of every carrier in table order; lemmas ApplyCarriersUnchanged, ApplyCarriersLength |
| Linkify.ApplyCarriersUnchanged | src/LinkifyTracking.php:111-121 | all passes change nothing when no pattern of any carrier matches |
| Linkify.ApplyCarriersLength | src/LinkifyTracking.php:111-121 | all passes never shorten the text, and lengthen it when some pattern matches |
| Linkify.Linkify | src/LinkifyTracking.php:109-124 | the nested loops compute the passes of every carrier's patterns in table order |
| Linkify.LinkifyUnchanged | src/LinkifyTracking.php:109-124 | `linkify` returns its input unchanged if and only if no pattern matches anywhere; otherwise the output is longer |
| Traces.RunsOnAwb | src/LinkifyTracking.php:19 | the DHL pattern and the third USPS pattern both match all of `8212345678` |
| Traces.RunsOnTwelve | src/LinkifyTracking.php:24 | `123456789012` misses DHL and is matched whole by FedEx |
| Traces.RunsOnUps | src/LinkifyTracking.php:29 | `1Z999AA10123456784` misses DHL and FedEx and is matched whole by UPS |
| Traces.RunsOnLed | src/LinkifyTracking.php:19-43 | in `x 1Z999AA10123456784`, no pattern matches at 0, UPS does not match at 1, and UPS matches from 2 to the end |
| Traces.RunsOnEmbedded | src/LinkifyTracking.php:19-43 | no pattern matches at the start of `prefix 1Z999AA10123456784 suffix` |
| Traces.RunsOnRoyalAb | src/LinkifyTracking.php:19-37 | none of the six patterns before Royal Mail matches at the start of `AB123456785GB` |
| Traces.RunsOnRoyalEe | src/LinkifyTracking.php:19-37 | none of the six patterns before Royal Mail matches at the start of `EE123456785GB` |
| Traces.RunsOnRoyalLower | src/LinkifyTracking.php:19-37 | none of the six patterns before Royal Mail matches at the start of `ab123456785gb` |
| Traces.RunsOnUsps | src/LinkifyTracking.php:35 | `9400111899560123456789` misses DHL, FedEx and UPS and is matched whole by the first USPS pattern |
| Traces.RunsOnUspsLk | src/LinkifyTracking.php:19-36 | `LK123456789US` misses DHL, FedEx, UPS and the first USPS pattern and is matched whole by the second |
| Traces.RunsOnShort | src/LinkifyTracking.php:19-43 | no pattern matches at the start of `123` |
| Examples.DhlBeforeUsps | src/LinkifyTracking.php:16-37 | `8212345678` fits DHL and USPS pattern 3, and `getLinkData` gives DHL and its URL, because DHL comes first |
| Examples.FedExNumber | src/LinkifyTracking.php:21-25 | `123456789012` is FedEx, with the number at the end of the URL |
| Examples.UpsNumber | src/LinkifyTracking.php:26-30 | `1Z999AA10123456784` is UPS, and `getLinkUrl` gives its URL |
| Examples.LeadingTextRejected | src/LinkifyTracking.php:86-90 | `x 1Z999AA10123456784` contains a UPS match, but not as the whole input, so the result is null |
| Examples.EmbeddedRejected | src/LinkifyTracking.php:86-90 | `prefix 1Z999AA10123456784 suffix` gets null |
| Examples.RoyalMailNumber | src/LinkifyTracking.php:40-44 | `AB123456785GB` is Royal Mail |
| Examples.RoyalMailLowerCase | src/LinkifyTracking.php:40-44 | the `/i` flag makes `ab123456785gb` a Royal Mail number too |
| Examples.ReservedPrefixRejected | src/LinkifyTracking.php:43 | the reserved prefix `EE` makes `EE123456785GB` null |
| Examples.UspsNumber | src/LinkifyTracking.php:35 | `9400111899560123456789` is USPS, by the first USPS pattern |
| Examples.UspsSecondForm | src/LinkifyTracking.php:36 | `LK123456789US` is USPS, by the second USPS pattern |
| Examples.ShortRejected | src/LinkifyTracking.php:78-100 | `123` gets null |
| Examples.EmptyRejected | src/LinkifyTracking.php:64-100 | the empty string gets null from both `getLinkData` and `getLinkUrl` |
| Examples.MissesEverywhere | src/LinkifyTracking.php:80-99 | a number that none of the seven patterns matches at its start gets null |
| Examples.RoyalMailOnly | src/LinkifyTracking.php:80-99 | a number that only the Royal Mail pattern matches, whole, gets Royal Mail's label and URL |

## Left out

- Regular expressions: the matcher covers only the constructs the table uses. These are
  ranges, concatenation, ordered alternation, bounded counted repetition, `\b`, a negative
  lookahead and the `/i` flag. General PCRE, capture groups and `$matches` beyond the
  whole match are not modelled.
- Royal Mail's possessive `[0-9]{9}+` is modelled as the plain count. An exact count of
  single digits leaves no choice to backtrack into, so the two are the same pattern.
- Strings are byte strings. There is no multi-byte or Unicode handling, and `/i` folds
  only ASCII letters, like PCRE without the `u` flag.
- The constructor and `$args`: the model passes only `linkAttributes` to the operations.
  A missing `linkAttributes` key (`?? []`) is the empty sequence. The class is not a Dafny
  class, because no operation changes its fields after construction. The carrier table is
  a parameter, and `Carriers.Table` is the built-in one.
- Attribute arrays: `linkAttributes` is a sequence of name/value pairs. Integer keys,
  which `array_merge` renumbers, and nested values are not modelled. No value is
  HTML-escaped, just as the code escapes none.
- Linkify.Linkify, Linkify.ApplyCarriers: these require that no pattern can match the
  empty string. The code accepts any pattern, but `preg_replace_callback`'s handling of
  empty matches is not modelled. The built-in table meets the requirement
  (`Carriers.TableValid`).
- URL templates are stored as the text before and after `%s`. `Template.RenderIsSprintf`
  and `Template.SprintfIsRender` relate this form to `sprintf` on the format string.
- `sprintf` is modelled for `%s` conversions only, with exactly as many arguments as
  conversions. The formats of the class use nothing else.
- Idempotence of `linkify` is not claimed. The code re-links numbers inside its own
  output, as the introduction explains.
- `preg_match` and `preg_replace_callback` errors (a backtrack limit, an invalid pattern)
  are not modelled. The built-in patterns are fixed and valid.
