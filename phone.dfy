/**
 * The `Phone` class: a mutable phone number with the last grouping
 * expression and template it was formatted with.
 */
module PhoneModel {
  import opened Wrappers
  import opened Digits
  import opened Grouping
  import opened Lookup

  /** A field name with a value for it, as passed to `_set(key, value)`. */
  datatype Entry =
    | NumberEntry(number: string)
    | PatternEntry(widths: seq<nat>)
    | TemplateEntry(template: Template)

  /** The regular expression and replacement passed to `_replace`:
      `/\D/g` with `''`, or the group expression of `widths` with a template. */
  datatype Rewrite =
    | NonDigits
    | GroupBlocks(widths: seq<nat>, template: Template)

  /** The group expression is only modelled on the digit strings `format`
      applies it to. */
  predicate Applicable(rw: Rewrite, s: string) {
    rw.GroupBlocks? ==> AllDigits(s) && Usable(rw.widths, rw.template)
  }

  /** `s.replace(regexp, replacement)` for the two rewrites the class uses. */
  function Rewritten(rw: Rewrite, s: string): string
    requires Applicable(rw, s)
  {
    match rw
    case NonDigits => StripNonDigits(s)
    case GroupBlocks(widths, t) => ReplaceAll(s, widths, t)
  }

  class Phone {
    /** The working value: the raw input, then its digits, then the
        formatted text. */
    var number: string
    /** The group widths of the last expression `format` stored (`None`
        while `format` has not run); they stand for the `RegExp` whose source
        is `RegexSource(widths)` with the `g` flag. */
    var pattern: Option<seq<nat>>
    /** The (prefixed) template `format` stored last. */
    var template: Option<Template>

    /** `new Phone(number)` for a string. */
    constructor (raw: string)
      ensures number == raw && pattern == None && template == None
    {
      number := raw;
      pattern := None;
      template := None;
    }

    /** `new Phone(number)` for an integer: `number.toString()` is its
        decimal text. Beyond `Number.MAX_SAFE_INTEGER` a JavaScript number
        no longer holds every integer, so the integer is bounded by it. */
    constructor FromInteger(n: nat)
      requires n <= 0x1F_FFFF_FFFF_FFFF
      ensures number == DecimalString(n) && pattern == None && template == None
    {
      number := DecimalString(n);
      pattern := None;
      template := None;
    }

    /** `_set(key, value)`: one field is overwritten. */
    method Set(entry: Entry)
      modifies this
      ensures entry.NumberEntry? ==> number == entry.number
      ensures !entry.NumberEntry? ==> number == old(number)
      ensures entry.PatternEntry? ==> pattern == Some(entry.widths)
      ensures !entry.PatternEntry? ==> pattern == old(pattern)
      ensures entry.TemplateEntry? ==> template == Some(entry.template)
      ensures !entry.TemplateEntry? ==> template == old(template)
    {
      match entry
      case NumberEntry(v) => number := v;
      case PatternEntry(w) => pattern := Some(w);
      case TemplateEntry(t) => template := Some(t);
    }

    /** `_replace('number', regexp, replacement)`: `number` is rewritten. */
    method Replace(rw: Rewrite)
      requires Applicable(rw, number)
      modifies this
      ensures number == Rewritten(rw, old(number))
      ensures pattern == old(pattern) && template == old(template)
    {
      Set(NumberEntry(Rewritten(rw, number)));
    }

    /** `sanitize()`: keeps only the digits of `number`, in order, and
        returns the instance itself. */
    method Sanitize() returns (self: Phone)
      modifies this
      ensures self == this
      ensures number == StripNonDigits(old(number)) && AllDigits(number)
      ensures pattern == old(pattern) && template == old(template)
    {
      Replace(NonDigits);
      self := this;
    }

    /** `format(pattern, template, prefix)`: sanitizes, stores the group
        expression and the prefixed template, and rewrites `number` by the
        global replace; the result is the new `number`. */
    method Format(widths: seq<nat>, t: Template, prefix: Option<string>) returns (r: string)
      requires Usable(widths, t)
      modifies this
      ensures pattern == Some(widths) && template == Some(Prefixed(t, prefix))
      ensures number == ReplaceAll(StripNonDigits(old(number)), widths, Prefixed(t, prefix))
      ensures r == number
    {
      var _ := Sanitize();
      Set(PatternEntry(widths));
      Set(TemplateEntry(Prefixed(t, prefix)));
      Replace(GroupBlocks(pattern.value, template.value));
      r := number;
    }

    /** `_find(query, registry, prefix)`: formats with the first record
        whose codes contain the normalized query; when there is none, the
        warning is reported and nothing changes. */
    method Find(query: string, registry: seq<CountryRecord>, prefix: Option<string>)
      returns (r: string, warning: Option<string>)
      requires MatchUsable(registry, Normalize(query))
      modifies this
      ensures FirstMatch(registry, Normalize(query)).Some? ==>
        var rec := registry[FirstMatch(registry, Normalize(query)).value];
        && warning == None
        && pattern == Some(rec.pattern)
        && template == Some(Prefixed(rec.template, prefix))
        && number == ReplaceAll(StripNonDigits(old(number)), rec.pattern, Prefixed(rec.template, prefix))
      ensures FirstMatch(registry, Normalize(query)).None? ==>
        && warning == Some(NotFoundMessage(Normalize(query)))
        && number == old(number) && pattern == old(pattern) && template == old(template)
      ensures r == number
    {
      var q := Normalize(query);
      var found := FindIndex(registry, q);
      if found.Some? {
        var rec := registry[found.value];
        r := Format(rec.pattern, rec.template, prefix);
        warning := None;
      } else {
        warning := Some(NotFoundMessage(q));
        r := number;
      }
    }

    /** `country(code, prefix, registry)`: the lookup with the registry given
        explicitly. */
    method Country(code: string, prefix: Option<string>, registry: seq<CountryRecord>)
      returns (r: string, warning: Option<string>)
      requires MatchUsable(registry, Normalize(code))
      modifies this
      ensures FirstMatch(registry, Normalize(code)).Some? ==>
        var rec := registry[FirstMatch(registry, Normalize(code)).value];
        && warning == None
        && pattern == Some(rec.pattern)
        && template == Some(Prefixed(rec.template, prefix))
        && number == ReplaceAll(StripNonDigits(old(number)), rec.pattern, Prefixed(rec.template, prefix))
      ensures FirstMatch(registry, Normalize(code)).None? ==>
        && warning == Some(NotFoundMessage(Normalize(code)))
        && number == old(number) && pattern == old(pattern) && template == old(template)
      ensures r == number
    {
      r, warning := Find(code, registry, prefix);
    }
  }
}
