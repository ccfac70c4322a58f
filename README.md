# Phone number formatting, modelled in Dafny

This project models the `Phone` class of the epnf library (`src/Phone.js`).
A `Phone` holds a phone number as text and can do three things with it:

- **sanitize** it: keep only its digits;
- **format** it: split the digits into groups of given widths and render them
  through a template such as `($1) $2-$3`, optionally preceded by a prefix
  such as `+`;
- **look up a country** by code in a registry of records (codes, group
  widths, template), then format the number with the first record whose
  codes contain the trimmed, upper-cased code. When no record matches, a
  warning is emitted and the number is returned unchanged.

Modules:

- `Wrappers`: `Option`.
- `Digits`: the `\D` filter applied by `sanitize` (`StripNonDigits`), and the
  decimal text of an integer (`DecimalString`), which `number.toString()`
  produces in the constructor.
- `Grouping`: the group expression built from the widths (`RegexSource`) and
  a parser that reads the widths back from it. Templates are sequences of
  tokens, either literal text or a `$k` placeholder. Also here: the captures
  of one match (`Groups`), rendering (`Render`), the prefix (`Prefixed`), and
  the global replace on a digit string (`ReplaceAll`). `ReplaceAll` comes with
  a positional reference definition (`Blocks`, `RenderEach`) and with the
  digit-preservation and reformatting properties.
- `Lookup`: `String.prototype.trim` (`TrimStart`, `TrimEnd`) and ASCII
  `toUpperCase` (`UpperAscii`); the registry record; the first-match
  scan (`FirstMatch`, and the loop `FindIndex`); the warning text.
- `PhoneModel`: the class `Phone`, with fields `number`, `pattern` and
  `template` and methods for `constructor`, `_set`, `_replace`, `sanitize`,
  `format`, `_find` and `country`. The stored `RegExp` is represented by its
  group widths. `RegexSourceRoundTrip` shows that the expression text
  determines those widths.
- `Examples`: the `BY` record (widths `[2, 2, 3]`, template `($1) $2-$3`)
  worked through, and clients of the class.

The expression is compiled with the `g` flag (`src/Phone.js:51`). The match
runs on a string of digits only, so every complete block of `Sum(widths)`
digits is rendered. Digits left over after the last complete block are kept
as they are: with `[2, 2, 3]`, `123456789` becomes `(12) 34-56789` and
fourteen digits become two rendered blocks. A number shorter than one block
is left unchanged. So the `g` flag formats longer numbers too, block by
block, and not only numbers of exactly one block's length.

Reformatting an already formatted number gives the same text
(`ReformatStable`). This is proved when the template is *faithful*: its
literal text holds no digit, and it names `$1 … $m` once each, in order.
That condition is enough, but not necessary.
A digit in the prefix breaks it: sanitizing reads the prefix's digits back as
part of the number (`StripPrefixedBlock`).

## Model

| member | source | states |
|---|---|---|
| Digits.StripNonDigits | src/Phone.js:71-75 | the result holds only digits and is no longer than the input |
| Digits.StripCounts | src/Phone.js:72 | every digit keeps its number of occurrences; every other character disappears |
| Digits.StripConcat | src/Phone.js:72 | the filter works character by character: filtering a concatenation concatenates the filtered parts |
| Digits.StripFixesDigits | src/Phone.js:72 | a digits-only string passes through unchanged |
| Digits.StripRemovesNonDigits | src/Phone.js:72 | a string without digits becomes empty |
| Digits.StripIdempotent | src/Phone.js:71-75 | sanitizing twice is sanitizing once |
| Digits.DecimalString | src/Phone.js:17-18 | `toString` of a non-negative integer is non-empty, holds only digits, and has no leading zero unless it is `0` |
| Digits.DecimalRoundTrip | src/Phone.js:17-18 | reading back the decimal text of `n` gives `n` |
| Grouping.RegexSource | src/Phone.js:47-49 | computes the expression text: one `(\d{w})` per width, joined with nothing between; `RegexSourceRoundTrip` proves the widths can be read back from it |
| Grouping.ParseRegex | src/Phone.js:51 | reads the `{n}` counts of an expression text back into widths; the inverse of `RegexSource`, by `RegexSourceRoundTrip` |
| Grouping.DigitRun | src/Phone.js:51 | the helper `ParseRegex` uses for `RegexSourceRoundTrip`: the length of the leading run of digits; the run is all digits and the next character is not one |
| Grouping.RegexSourceRoundTrip | src/Phone.js:47-51 | the widths can be read back from the expression text `(\d{w1})…(\d{wm})` |
| Grouping.Groups | src/Phone.js:47-51 | one match yields one capture per width, each exactly as long as its width |
| Grouping.GroupsConcat | src/Phone.js:47-51 | the captures, laid end to end, are the matched block |
| Grouping.GroupAt | src/Phone.js:47-51 | capture k is the slice of the block that starts after the first k widths |
| Grouping.Prefixed | src/Phone.js:53-55 | prepending the prefix keeps every placeholder naming an existing group |
| Grouping.PrefixedRender | src/Phone.js:53-55 | a prefixed template renders as the prefix followed by the template's rendering |
| Grouping.Render | src/Phone.js:59 | computes the replacement text for one match: literal pieces as they are, each `$k` as capture k; `PrefixedRender` and `StripRender` state its properties |
| Grouping.RenderBlock | src/Phone.js:59 | the replacement text for one matched block: the template rendered with the block's captures; `ReplaceAllExact` states that a one-block number becomes it |
| Grouping.ReplaceAll | src/Phone.js:59 | computes `number.replace(pattern, template)` with the `g` flag on a digit string; `ReplaceAllBlocks` states it against the positional reference `Blocks`/`RenderEach` |
| Grouping.RenderEach | src/Phone.js:51-59 | the reference rendering: every block rendered through the template, laid end to end |
| Grouping.Blocks | src/Phone.js:51 | the reference split into `count` blocks, each `Sum(widths)` characters long |
| Grouping.BlocksTile | src/Phone.js:51 | the blocks, laid end to end, are exactly the start of the number they cover |
| Grouping.BlocksShift | src/Phone.js:51 | after the first block, the remaining blocks are the blocks of the rest of the number |
| Grouping.ReplaceAllBlocks | src/Phone.js:51-59 | the global replace renders every complete block in order and keeps the trailing digits verbatim |
| Grouping.ReplaceAllExact | src/Phone.js:59 | a number exactly one block long becomes the rendered template |
| Grouping.ReplaceAllShort | src/Phone.js:59 | a number shorter than one block is not matched and stays as it is |
| Grouping.StripRender | src/Phone.js:59 | the digits of a rendered template are the captures it names, in the order it names them |
| Grouping.StripReplaceAll | src/Phone.js:44-75 | with a faithful template, sanitizing a formatted number gives back its digits |
| Grouping.ReformatStable | src/Phone.js:44-61 | formatting a formatted number again with the same faithful template changes nothing |
| Grouping.PrefixedFaithful | src/Phone.js:53-55 | a prefix without digits keeps a faithful template faithful |
| Grouping.StripPrefixedBlock | src/Phone.js:53-55 | after a prefixed format, sanitizing yields the prefix's digits followed by the number |
| Lookup.TrimStart | src/Phone.js:102 | the result is a suffix of the input; everything removed is white space; the result does not start with white space |
| Lookup.TrimEnd | src/Phone.js:102 | the result is a prefix of the input; everything removed is white space; the result does not end with white space |
| Lookup.Trim | src/Phone.js:102 | computes `query.trim()` as trailing removal after leading removal; `TrimPadding` states that padding is ignored |
| Lookup.TrimStartPadding | src/Phone.js:102 | leading white space is removed whatever it is |
| Lookup.TrimEndPadding | src/Phone.js:102 | trailing white space is removed whatever it is |
| Lookup.TrimStartAppend | src/Phone.js:102 | trailing white space does not change the trimmed result |
| Lookup.TrimPadding | src/Phone.js:102 | `trim` of a padded query equals `trim` of the bare query |
| Lookup.UpperAscii | src/Phone.js:104-106 | same length, and every character is upper-cased in place |
| Lookup.TrimStartUpper | src/Phone.js:102-106 | upper-casing and removing leading white space commute |
| Lookup.TrimEndUpper | src/Phone.js:102-106 | upper-casing and removing trailing white space commute |
| Lookup.NormalizeUpperFirst | src/Phone.js:102-106 | trimming then upper-casing equals upper-casing then trimming |
| Lookup.NormalizeEquivalent | src/Phone.js:102-106 | queries that differ only in ASCII letter case and surrounding white space normalize alike |
| Lookup.Normalize | src/Phone.js:102-106 | computes the query `_find` compares: trimmed, then upper-cased; `NormalizeEquivalent` states which queries normalize alike |
| Lookup.NotFoundMessage | src/Phone.js:118 | computes the warning text `[Country Code Q] doesn't not found!` for the normalized query Q |
| Lookup.FirstMatch | src/Phone.js:112-116 | a match is the first record whose codes contain the query; no match means no record contains it |
| Lookup.FindIndex | src/Phone.js:112-120 | the scan with early return finds exactly the first matching record, or reports that none matches |
| PhoneModel.Rewritten | src/Phone.js:134-136 | computes `number.replace(regexp, replacement)` for the two rewrites the class makes: the `\D` filter and the global group replace |
| PhoneModel.Phone.constructor | src/Phone.js:17-19 | a new phone holds the given text and has not been formatted |
| PhoneModel.Phone.FromInteger | src/Phone.js:17-19 | a phone made from an integer holds its decimal text |
| PhoneModel.Phone.Set | src/Phone.js:86-88 | exactly the named field is overwritten |
| PhoneModel.Phone.Replace | src/Phone.js:134-136 | `number` becomes the rewritten number; the other fields are unchanged |
| PhoneModel.Phone.Sanitize | src/Phone.js:71-75 | `number` keeps only its digits; the instance itself is returned |
| PhoneModel.Phone.Format | src/Phone.js:44-62 | stores the widths and the prefixed template; `number` becomes the global replace on the sanitized digits, which is returned |
| PhoneModel.Phone.Find | src/Phone.js:101-121 | with a match, formats with the first matching record and gives no warning; without one, warns with the message for the normalized query and changes nothing |
| PhoneModel.Phone.Country | src/Phone.js:31-33 | the lookup with the given code, prefix and registry |
| Examples.ByRegex | src/Phone.js:47-49 | widths `[2, 2, 3]` give the expression `(\d{2})(\d{2})(\d{3})` |
| Examples.ByBlock | src/Phone.js:44-61 | any seven-digit block renders as `(ab) cd-efg` with the `BY` template |
| Examples.ByExact | src/Phone.js:44-61 | `1234567` formats as `(12) 34-567` |
| Examples.ByWithPrefix | src/Phone.js:53-55 | with prefix `+`, `1234567` formats as `+(12) 34-567` |
| Examples.ByLonger | src/Phone.js:51-59 | `123456789` formats as `(12) 34-56789`: one block, with the tail kept |
| Examples.ByTwoBlocks | src/Phone.js:51-59 | any fourteen digits format as two rendered blocks, one after the other |
| Examples.ByShort | src/Phone.js:51-59 | `123456` is too short to match and stays as it is |
| Examples.ByStrip | src/Phone.js:72 | dashes between digit groups are dropped by sanitizing |
| Examples.PaddedQuery | src/Phone.js:102-106 | the query ` by ` normalizes to `BY` |
| Examples.ByQuery | src/Phone.js:101-118 | ` by ` selects the `BY` record; `ZZ` selects none |
| Examples.FormatAgain | src/Phone.js:44-62 | calling `format` twice with a faithful template leaves the first result |

## Left out

- The default registry: when no registry is passed, `_find` uses `Country.registry()`. `src/Country.js` is not part of this model, so the registry is always an explicit parameter of `Find` and `Country`.
- `console.warn` is output. `Find` returns the warning text as a second result instead of writing it.
- A numeric country code is not modelled. `query.trim()` runs before the `typeof` check, so a number code throws in JavaScript. The model takes the code as a string.
- A record's `code` is modelled as a list of strings, where `includes` is membership. A `code` that is a plain string would make `includes` a substring test; that case is not modelled.
- Template text is not parsed: a template is given as its literal pieces and `$1`…`$9` placeholders. `$$`, `$&`, `` $` ``, `$'`, two-digit group numbers and placeholders past the last group are not modelled.
- PhoneModel.Phone.Format: requires at least one non-zero width and a template whose placeholders all name existing groups. With only zero widths the expression matches the empty string at every position. A placeholder past the last group stays literal text. Neither case is modelled.
- PhoneModel.Phone.Find: requires the same of the record that matches.
- PhoneModel.Phone.Replace: the group expression is only modelled on the digit strings that `format` applies it to, after sanitizing.
- Lookup.UpperAscii: only ASCII letters are upper-cased. Unicode case mapping (for example `ß` to `SS`, which changes the length) is not modelled.
- PhoneModel.Phone.FromInteger: takes non-negative integers up to `Number.MAX_SAFE_INTEGER`. The text of negative numbers, fractions, exponent notation and larger numbers is not modelled.
- Prefixes other than strings are not modelled: `null` prints as `null` when prepended. `src/Phone.js:54` puts the prefix into the replacement string, so in JavaScript a `$1` or `$$` in a prefix is expanded, and a prefix ending in `$` changes how the template's first placeholder is read. The model takes the prefix as literal text and does not capture either effect.
- Widths that are not integers are not modelled; the widths are natural numbers.
- The symbol-keyed private method names are not modelled. `_set`, `_find` and `_replace` are ordinary members.
- `for … in` visiting non-index properties of the registry is not modelled. The scan is over the list positions in order.
