/** The target-catalog shapes of src/schemas/portaljs-cloud.d.ts, and the identity name every
    mapper gives a harvested dataset. Each optional property is an `Option`. */
module Schema {
  import opened Js

  datatype Tag = Tag(name: Option<string>)

  datatype Extra = Extra(key: string, value: string)

  datatype Resource = Resource(
    name: Option<string>,
    url: Option<string>,
    format: Option<string>,
    description: Option<string>,
    harvestedLastModified: Option<string>,
    position: Option<int>,
    id: Option<string>)

  datatype Dataset = Dataset(
    ownerOrg: string,
    name: string,
    title: Option<string>,
    notes: string,
    language: string,
    resources: seq<Resource>,
    tags: Option<seq<Tag>>,
    extras: Option<seq<Extra>>,
    author: Option<string>,
    licenseId: Option<string>,
    rights: Option<string>,
    version: Option<string>,
    authorEmail: Option<string>,
    maintainer: Option<string>,
    maintainerEmail: Option<string>)

  /** A resource literal `{ name, url, format }` with no other property set. */
  function SimpleResource(name: Option<string>, url: Option<string>, format: Option<string>): Resource {
    Resource(name, url, format, None, None, None, None)
  }

  /** A dataset literal with the required properties; the others are left unset. */
  function BaseDataset(ownerOrg: string, name: string, title: Option<string>, notes: string,
                       language: string, resources: seq<Resource>): Dataset {
    Dataset(ownerOrg, name, title, notes, language, resources, None, None, None, None, None, None, None, None, None)
  }

  /** `${owner_org}--${id}`: the name under which a source record is upserted. */
  function TargetName(ownerOrg: string, id: string): string {
    ownerOrg + "--" + id
  }

  /** A character the sanitisers leave in a name: a lower-case ASCII letter, a digit, '-' or '_'. */
  predicate NameChar(c: char) {
    ('a' <= c <= 'z') || ('0' <= c <= '9') || c == '-' || c == '_'
  }

  /** The identity name determines the source identifier, so distinct records never share a name. */
  lemma TargetNameInjective(ownerOrg: string, a: string, b: string)
    requires TargetName(ownerOrg, a) == TargetName(ownerOrg, b)
    ensures a == b
  {
    var n := |ownerOrg| + 2;
    assert a == TargetName(ownerOrg, a)[n..];
    assert b == TargetName(ownerOrg, b)[n..];
  }

  /** Tags `{ name }` for a list of strings, in order. */
  function TagsOf(names: seq<string>): (r: seq<Tag>)
    ensures |r| == |names| && forall i :: 0 <= i < |names| ==> r[i] == Tag(Some(names[i]))
  {
    seq(|names|, i requires 0 <= i < |names| => Tag(Some(names[i])))
  }

  /** `xs?.map((t) => ({ name: t }))`. */
  function OptionalTags(names: Option<seq<string>>): Option<seq<Tag>> {
    if names.Some? then Some(TagsOf(names.value)) else None
  }
}
