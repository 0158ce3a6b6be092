/** Skill files: Parse and Serialize of pkg/skill/skill.go. */
module Skills {
  import opened Wrappers
  import opened Strings
  import opened Framing

  datatype Skill = Skill(name: string, description: string, tags: seq<string>, content: string)

  // The struct that is marshalled.
  datatype Raw = Raw(name: string, description: string, tags: seq<string>)

  datatype Error =
    | Frame(error: FrameError)
    | BadYaml
    | NameRequired
    | DescriptionRequired

  // The YAML library.
  datatype Library = Library(marshal: Raw -> string, unmarshal: string -> Result<Raw, ()>)

  function ParseFields(lib: Library, frontmatter: string, body: string): Result<Skill, Error> {
    match lib.unmarshal(frontmatter)
    case Err(_) => Err(BadYaml)
    case Ok(raw) =>
      if raw.name == "" then Err(NameRequired)
      else if raw.description == "" then Err(DescriptionRequired)
      else Ok(Skill(raw.name, raw.description, raw.tags, body))
  }

  function Parse(lib: Library, content: string): Result<Skill, Error> {
    match Unframe(content)
    case Err(e) => Err(Frame(e))
    case Ok(f) => ParseFields(lib, f.frontmatter, BodyOf(f))
  }

  function RawOf(skill: Skill): Raw {
    Raw(skill.name, skill.description, skill.tags)
  }

  function Serialize(lib: Library, skill: Skill): string {
    Serialized(lib.marshal(RawOf(skill)), skill.content)
  }

  // What the round trip of one skill asks of the library.
  ghost predicate Faithful(lib: Library, skill: Skill) {
    var m := lib.marshal(RawOf(skill));
    && m != "" && m[|m| - 1] == '\n'
    && FreeOfClosing(m[..|m| - 1])
    && lib.unmarshal(m[..|m| - 1]) == Ok(RawOf(skill))
  }

  predicate Storable(skill: Skill) {
    skill.name != "" && skill.description != "" && Trimmed(Space, skill.content)
  }

  // The file of a skill, byte for byte.
  lemma FileReads(lib: Library, skill: Skill)
    ensures Serialize(lib, skill) ==
      "---\n" + lib.marshal(Raw(skill.name, skill.description, skill.tags)) + "---\n"
      + if skill.content == "" then "" else skill.content + "\n"
  {
  }

  // A skill file is read exactly when it can be split and its block is YAML of a named and
  // described skill; the content is the trimmed rest.
  lemma ParsesExactlyWhen(lib: Library, content: string, skill: Skill)
    ensures Parse(lib, content) == Ok(skill) <==>
      && Unframe(content).Ok?
      && var f := Unframe(content).value;
         && lib.unmarshal(f.frontmatter).Ok?
         && var raw := lib.unmarshal(f.frontmatter).value;
            && raw.name != "" && raw.description != ""
            && skill == Skill(raw.name, raw.description, raw.tags, Trim(Space, f.trailer[4..]))
  {
  }

  lemma ParsedIsStorable(lib: Library, content: string)
    ensures Parse(lib, content).Ok? ==> Storable(Parse(lib, content).value)
  {
    var u := Unframe(content);
    if u.Ok? {
      TrimIsTrimmed(Space, u.value.trailer[4..]);
    }
  }

  // Saving a skill and loading it gives the skill back exactly when it is storable.
  lemma SaveThenLoad(lib: Library, skill: Skill)
    requires Faithful(lib, skill)
    ensures Parse(lib, Serialize(lib, skill)) == Ok(skill) <==> Storable(skill)
  {
    if Storable(skill) {
      var m := lib.marshal(RawOf(skill));
      var block := m[..|m| - 1];
      assert m == block + "\n";
      FrameRoundTrip(block, skill.content);
    } else {
      ParsedIsStorable(lib, Serialize(lib, skill));
    }
  }

  // Saving what was loaded, from any file at all, keeps what a load gives.
  lemma LoadThenSave(lib: Library, content: string, skill: Skill)
    requires Faithful(lib, skill)
    ensures Parse(lib, content) == Ok(skill) ==> Parse(lib, Serialize(lib, skill)) == Ok(skill)
  {
    ParsedIsStorable(lib, content);
    SaveThenLoad(lib, skill);
  }
}
