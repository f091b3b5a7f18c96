/** gen-schema.ts: the rendering of a ckanext-scheming dataset schema as TypeScript interfaces.
    Each dataset field becomes one property line, each resource field an optional string. */
module GenSchema {
  import opened Js
  import Json
  import Utils

  /** `validators`, which the schema gives as a list, as one string, or not at all. */
  datatype Validators = NoValidators | OneValidator(v: string) | ValidatorList(vs: seq<string>)

  /** A field of the schema; `choices` holds the `value` of each choice. */
  datatype SchemaField = SchemaField(fieldName: string, choices: Option<seq<string>>, validators: Validators)

  /** `Array.isArray(v) ? v : (v ? [v] : [])`. */
  function ValidatorsOf(f: SchemaField): (vs: seq<string>)
    ensures f.validators.ValidatorList? ==> vs == f.validators.vs
    ensures f.validators.OneValidator? ==> vs == (if f.validators.v != "" then [f.validators.v] else [])
    ensures f.validators.NoValidators? ==> vs == []
  {
    match f.validators
    case ValidatorList(vs) => vs
    case OneValidator(v) => if v != "" then [v] else []
    case NoValidators => []
  }

  /** A validator that makes a field required. */
  predicate Requires(v: string) {
    Contains(v, "not_empty") || Contains(v, "scheming_required")
  }

  /** `validators.some((v) => v.includes("not_empty") || v.includes("scheming_required"))`. */
  predicate IsRequired(f: SchemaField) {
    exists i :: 0 <= i < |ValidatorsOf(f)| && Requires(ValidatorsOf(f)[i])
  }

  /** The choices, each as a JSON string. */
  function QuotedChoices(cs: seq<string>): (qs: seq<string>)
    ensures |qs| == |cs| && forall i :: 0 <= i < |cs| ==> qs[i] == Json.Quote(cs[i])
  {
    seq(|cs|, i requires 0 <= i < |cs| => Json.Quote(cs[i]))
  }

  /** The property type: "string", or the union of the quoted choice values. */
  function TsType(f: SchemaField): string {
    if f.choices.Some? then Join(QuotedChoices(f.choices.value), " | ") else "string"
  }

  /** The line of a dataset field. */
  function DatasetProp(f: SchemaField): string {
    "  " + f.fieldName + (if IsRequired(f) then "" else "?") + ": " + TsType(f) + ";"
  }

  /** The line of a resource field: every one is an optional string. */
  function ResourceProp(f: SchemaField): string {
    "  " + f.fieldName + "?: string;"
  }

  function DatasetProps(fs: seq<SchemaField>): (ls: seq<string>)
    ensures |ls| == |fs| && forall i :: 0 <= i < |fs| ==> ls[i] == DatasetProp(fs[i])
  {
    seq(|fs|, i requires 0 <= i < |fs| => DatasetProp(fs[i]))
  }

  function ResourceProps(fs: seq<SchemaField>): (ls: seq<string>)
    ensures |ls| == |fs| && forall i :: 0 <= i < |fs| ==> ls[i] == ResourceProp(fs[i])
  {
    seq(|fs|, i requires 0 <= i < |fs| => ResourceProp(fs[i]))
  }

  /** The interface name: `capitalize(type) + "Schema"`. */
  function InterfaceName(typ: string): string {
    Utils.Capitalize(typ) + "Schema"
  }

  /** The opening line of the dataset interface. */
  function Header(typ: string): string {
    "export interface " + InterfaceName(typ) + " {"
  }

  const Banner: string := "// Auto-generated from CKAN schema"
  const ResourcesLine: string := "  resources?: CkanResource[];"
  const ResourceInterface: string := "export interface CkanResource {"

  /** The lines a joined list occupies: an empty list still leaves an empty line. */
  function Block(lines: seq<string>): (b: seq<string>)
    ensures |b| >= 1
  {
    if |lines| == 0 then [""] else lines
  }

  /** The lines of the generated file, with the two field lists at their places. */
  function ContentLines(typ: string, datasetFields: seq<SchemaField>, resourceFields: seq<SchemaField>): seq<string> {
    [Banner, Header(typ)]
    + Block(DatasetProps(datasetFields))
    + [ResourcesLine, "}", "", ResourceInterface]
    + Block(ResourceProps(resourceFields))
    + ["}", ""]
  }

  /** The generated file: the template with the two field lists joined by newlines. */
  function Content(typ: string, datasetFields: seq<SchemaField>, resourceFields: seq<SchemaField>): string {
    Banner + "\n" + Header(typ) + "\n"
    + Join(DatasetProps(datasetFields), "\n") + "\n"
    + ResourcesLine + "\n" + "}" + "\n" + "" + "\n" + ResourceInterface + "\n"
    + Join(ResourceProps(resourceFields), "\n") + "\n"
    + "}" + "\n" + ""
  }

  /** A field without choices is a string; with choices it is a union of JSON strings, "" for
      an empty list and the single quoted value for one choice. */
  lemma TsTypeShape(f: SchemaField)
    ensures f.choices.None? ==> TsType(f) == "string"
    ensures f.choices == Some([]) ==> TsType(f) == ""
    ensures f.choices.Some? && |f.choices.value| == 1 ==> TsType(f) == Json.Quote(f.choices.value[0])
    ensures '\n' !in TsType(f)
  {
    if f.choices.Some? {
      var qs := QuotedChoices(f.choices.value);
      forall i | 0 <= i < |qs| ensures '\n' !in qs[i] {
        Json.QuoteNoNewline(f.choices.value[i]);
      }
      JoinNoChar(qs, " | ", '\n');
    }
  }

  /** Joining pieces free of a character with a separator free of it gives a string free of it. */
  lemma {:induction false} JoinNoChar(xs: seq<string>, sep: string, c: char)
    requires c !in sep && forall i :: 0 <= i < |xs| ==> c !in xs[i]
    ensures c !in Join(xs, sep)
    decreases |xs|
  {
    if |xs| > 1 {
      JoinNoChar(xs[1..], sep, c);
      assert Join(xs, sep) == xs[0] + sep + Join(xs[1..], sep);
    }
  }

  /** A field is required exactly when a validator mentions `not_empty` or `scheming_required`;
      a validator given as a single string counts like a one-element list. */
  lemma RequiredByValidator(f: SchemaField, v: string)
    requires f.validators == OneValidator(v) || f.validators == ValidatorList([v])
    ensures IsRequired(f) <==> Requires(v)
  {
    if Requires(v) {
      assert ValidatorsOf(f)[0] == v;
    }
  }

  /** `not_empty` anywhere in a validator's text makes the field required. */
  lemma NotEmptyRequires(f: SchemaField, i: nat, k: nat)
    requires i < |ValidatorsOf(f)| && k + 9 <= |ValidatorsOf(f)[i]|
    requires ValidatorsOf(f)[i][k..k + 9] == "not_empty"
    ensures IsRequired(f)
  {
    ContainsAt(ValidatorsOf(f)[i], "not_empty", k);
  }

  /** The line of a dataset field marks it optional with "?" exactly when it is not required. */
  lemma DatasetPropMarksOptional(f: SchemaField)
    ensures var line := DatasetProp(f); var n := 2 + |f.fieldName|;
      && line[..n] == "  " + f.fieldName
      && (line[n] == '?' <==> !IsRequired(f))
      && line[|line| - 1] == ';'
  {
  }

  /** Split at newlines, the file gives back its lines: one per dataset field, in order, and one
      per resource field, provided no field name holds a newline. */
  lemma ContentSplitsIntoLines(typ: string, datasetFields: seq<SchemaField>, resourceFields: seq<SchemaField>)
    requires '\n' !in typ
    requires forall i :: 0 <= i < |datasetFields| ==> '\n' !in datasetFields[i].fieldName
    requires forall i :: 0 <= i < |resourceFields| ==> '\n' !in resourceFields[i].fieldName
    ensures Split(Content(typ, datasetFields, resourceFields), '\n') == ContentLines(typ, datasetFields, resourceFields)
  {
    ContentLinesNoNewline(typ, datasetFields, resourceFields);
    JoinSplit(ContentLines(typ, datasetFields, resourceFields), '\n');
    ContentJoin(typ, datasetFields, resourceFields);
  }

  /** No line of the file holds a newline, under the same conditions. */
  lemma ContentLinesNoNewline(typ: string, datasetFields: seq<SchemaField>, resourceFields: seq<SchemaField>)
    requires '\n' !in typ
    requires forall i :: 0 <= i < |datasetFields| ==> '\n' !in datasetFields[i].fieldName
    requires forall i :: 0 <= i < |resourceFields| ==> '\n' !in resourceFields[i].fieldName
    ensures var lines := ContentLines(typ, datasetFields, resourceFields);
      forall i :: 0 <= i < |lines| ==> '\n' !in lines[i]
  {
    var ds, rs := DatasetProps(datasetFields), ResourceProps(resourceFields);
    PropsNoNewline(datasetFields, resourceFields);
    HeaderNoNewline(typ);
    TemplateNoNewline();
    LinesNoNewline([Banner, Header(typ)], Block(ds),
                   [ResourcesLine, "}", "", ResourceInterface], Block(rs), ["}", ""]);
  }

  lemma HeaderNoNewline(typ: string)
    requires '\n' !in typ
    ensures '\n' !in Header(typ)
  {
    var c := Utils.Capitalize(typ);
    assert forall i :: 0 <= i < |c| ==> c[i] != '\n';
  }

  /** A property line holds a newline only when its field name does. */
  lemma PropsNoNewline(datasetFields: seq<SchemaField>, resourceFields: seq<SchemaField>)
    requires forall i :: 0 <= i < |datasetFields| ==> '\n' !in datasetFields[i].fieldName
    requires forall i :: 0 <= i < |resourceFields| ==> '\n' !in resourceFields[i].fieldName
    ensures forall i :: 0 <= i < |DatasetProps(datasetFields)| ==> '\n' !in DatasetProps(datasetFields)[i]
    ensures forall i :: 0 <= i < |ResourceProps(resourceFields)| ==> '\n' !in ResourceProps(resourceFields)[i]
  {
    forall i | 0 <= i < |datasetFields| ensures '\n' !in DatasetProp(datasetFields[i]) {
      TsTypeShape(datasetFields[i]);
    }
  }

  lemma TemplateNoNewline()
    ensures '\n' !in Banner && '\n' !in ResourcesLine && '\n' !in ResourceInterface
  {
    BannerNoNewline();
    ResourcesLineNoNewline();
    ResourceInterfaceNoNewline();
  }

  lemma BannerNoNewline()
    ensures '\n' !in Banner
  {
  }

  lemma ResourcesLineNoNewline()
    ensures '\n' !in ResourcesLine
  {
  }

  lemma ResourceInterfaceNoNewline()
    ensures '\n' !in ResourceInterface
  {
  }

  /** Lines free of newlines, put together, stay free of them. */
  lemma LinesNoNewline(h: seq<string>, d: seq<string>, m: seq<string>, r: seq<string>, t: seq<string>)
    requires forall i :: 0 <= i < |h| ==> '\n' !in h[i]
    requires forall i :: 0 <= i < |d| ==> '\n' !in d[i]
    requires forall i :: 0 <= i < |m| ==> '\n' !in m[i]
    requires forall i :: 0 <= i < |r| ==> '\n' !in r[i]
    requires forall i :: 0 <= i < |t| ==> '\n' !in t[i]
    ensures forall i :: 0 <= i < |h + d + m + r + t| ==> '\n' !in (h + d + m + r + t)[i]
  {
  }

  /** The file is its lines joined by newlines. */
  lemma ContentJoin(typ: string, datasetFields: seq<SchemaField>, resourceFields: seq<SchemaField>)
    ensures Content(typ, datasetFields, resourceFields) == Join(ContentLines(typ, datasetFields, resourceFields), "\n")
  {
    var ds, rs := DatasetProps(datasetFields), ResourceProps(resourceFields);
    JoinBlock(ds, "\n");
    JoinBlock(rs, "\n");
    TemplateJoin(Banner, Header(typ), ResourcesLine, "}", "", ResourceInterface, "}", "",
                 Block(ds), Block(rs), "\n");
  }

  /** The template, with its fixed lines and the two blocks, is the join of its lines. */
  lemma TemplateJoin(a: string, b: string, c: string, f: string, g: string, e: string, h: string, k: string,
                     d: seq<string>, r: seq<string>, sep: string)
    requires |d| > 0 && |r| > 0
    ensures a + sep + b + sep + Join(d, sep) + sep + c + sep + f + sep + g + sep + e + sep
            + Join(r, sep) + sep + h + sep + k
            == Join([a, b] + d + [c, f, g, e] + r + [h, k], sep)
  {
    JoinTwo(a, b, sep);
    JoinFour(c, f, g, e, sep);
    JoinTwo(h, k, sep);
    JoinFive([a, b], d, [c, f, g, e], r, [h, k], sep);
    var p := a + sep + b + sep + Join(d, sep) + sep;
    var q := p + c + sep + f + sep + g + sep + e + sep + Join(r, sep) + sep;
    Assoc(p, c + sep + f + sep + g + sep, e);
    Assoc(p, c + sep + f + sep + g, sep);
    Assoc(p, c + sep + f + sep, g);
    Assoc(p, c + sep + f, sep);
    Assoc(p, c + sep, f);
    Assoc(p, c, sep);
    Assoc(q, h + sep, k);
    Assoc(q, h, sep);
  }

  lemma Assoc(x: string, y: string, z: string)
    ensures x + (y + z) == x + y + z
  {
  }

  lemma JoinBlock(xs: seq<string>, sep: string)
    ensures Join(Block(xs), sep) == Join(xs, sep)
  {
  }

  lemma JoinTwo(a: string, b: string, sep: string)
    ensures Join([a, b], sep) == a + sep + b
  {
    assert [a, b][1..] == [b];
  }

  lemma JoinFour(a: string, b: string, c: string, d: string, sep: string)
    ensures Join([a, b, c, d], sep) == a + sep + b + sep + c + sep + d
  {
    assert [a, b, c, d][1..] == [b, c, d];
    assert [b, c, d][1..] == [c, d];
    JoinTwo(c, d, sep);
  }

  /** Five non-empty lists joined together. */
  lemma JoinFive(h: seq<string>, d: seq<string>, m: seq<string>, r: seq<string>, t: seq<string>, sep: string)
    requires |h| > 0 && |d| > 0 && |m| > 0 && |r| > 0 && |t| > 0
    ensures Join(h + d + m + r + t, sep)
            == Join(h, sep) + sep + Join(d, sep) + sep + Join(m, sep) + sep + Join(r, sep) + sep + Join(t, sep)
  {
    JoinAppend(h + d + m + r, t, sep);
    JoinAppend(h + d + m, r, sep);
    JoinAppend(h + d, m, sep);
    JoinAppend(h, d, sep);
  }

  /** Joining a concatenation joins the two halves around one separator; an empty half adds
      nothing. */
  lemma {:induction false} JoinAppend(a: seq<string>, b: seq<string>, sep: string)
    ensures Join(a + b, sep) ==
            if |a| == 0 then Join(b, sep) else if |b| == 0 then Join(a, sep) else Join(a, sep) + sep + Join(b, sep)
    decreases |a|
  {
    if |a| == 0 {
      assert a + b == b;
    } else if |b| == 0 {
      assert a + b == a;
    } else if |a| == 1 {
      assert (a + b)[1..] == b;
    } else {
      JoinAppend(a[1..], b, sep);
      assert (a + b)[1..] == a[1..] + b;
    }
  }
}
