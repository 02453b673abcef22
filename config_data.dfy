/** `TestConfigData`, the configuration schema of the test program: five
    fields, rendered to one nested document in any of the three formats, and
    read back from TOML all-or-nothing. */
module ConfigData {
  import opened Results
  import opened Types
  import opened Serialization
  import opened Toml

  datatype SockMode = SockMode(tcp: bool, udp: bool)

  datatype IpAddress = IpAddress(ip: string, port: U16, sockMode: SockMode)

  /** The value of a `TestConfigData`: everything `*this = temp` copies. */
  datatype Settings = Settings(test: U32, ipAddress: IpAddress)

  /** The member initialisers: `test = 0`, `ip = "127.0.0.1"`,
      `port = 25565`, `tcp = true`, `udp = false`. */
  const Defaults: Settings := Settings(0, IpAddress("127.0.0.1", 25565, SockMode(true, false)))

  const UnsupportedFormat: string := "unsupported deserialization format"

  /** `what()` of `std::bad_optional_access` (its text is up to the
      standard library; this is the common one). */
  const BadOptionalAccess: string := "bad optional access"

  const DeserializeError: string := "error when deserializing: " + BadOptionalAccess

  /** The key paths of the five fields. */
  const TestPath: seq<string> := ["test"]
  const IpPath: seq<string> := ["ip_address", "ip"]
  const PortPath: seq<string> := ["ip_address", "port"]
  const TcpPath: seq<string> := ["ip_address", "sock_mode", "tcp"]
  const UdpPath: seq<string> := ["ip_address", "sock_mode", "udp"]

  /** The five key paths hold exactly the five fields of `s`, with the node
      kinds `serialize` writes: integer, string, integer, two booleans. */
  ghost predicate Stores(doc: Document, s: Settings)
  {
    && Lookup(doc, TestPath) == Some(Integer(s.test as int))
    && Lookup(doc, IpPath) == Some(Text(s.ipAddress.ip))
    && Lookup(doc, PortPath) == Some(Integer(s.ipAddress.port as int))
    && Lookup(doc, TcpPath) == Some(Boolean(s.ipAddress.sockMode.tcp))
    && Lookup(doc, UdpPath) == Some(Boolean(s.ipAddress.sockMode.udp))
  }

  /** The five key paths hold nodes the library reads as the five fields of
      `s`: integers may also be booleans (0 or 1), booleans may also be
      integers (not zero). */
  ghost predicate Holds(doc: Document, s: Settings)
  {
    && Lookup(doc, TestPath).Some? && ReadsAsInteger(Lookup(doc, TestPath).value, s.test as int)
    && Lookup(doc, IpPath) == Some(Text(s.ipAddress.ip))
    && Lookup(doc, PortPath).Some? && ReadsAsInteger(Lookup(doc, PortPath).value, s.ipAddress.port as int)
    && Lookup(doc, TcpPath).Some? && ReadsAsBool(Lookup(doc, TcpPath).value, s.ipAddress.sockMode.tcp)
    && Lookup(doc, UdpPath).Some? && ReadsAsBool(Lookup(doc, UdpPath).value, s.ipAddress.sockMode.udp)
  }

  /** The table `serialize` builds: `test` at the root, `ip` and `port` in
      `ip_address`, `tcp` and `udp` in `ip_address.sock_mode`. */
  function ToDocument(s: Settings): (doc: Document)
    ensures doc.Keys == {"test", "ip_address"}
  {
    map[
      "test" := Integer(s.test as int),
      "ip_address" := Table(map[
        "ip" := Text(s.ipAddress.ip),
        "port" := Integer(s.ipAddress.port as int),
        "sock_mode" := Table(map[
          "tcp" := Boolean(s.ipAddress.sockMode.tcp),
          "udp" := Boolean(s.ipAddress.sockMode.udp)
        ])
      ])
    ]
  }

  /** The `switch` on the tag: the formatter the tag names. */
  function Render(f: Serializer, fmts: Formatters, doc: Document): string
  {
    match f
    case TOML => fmts.toml(doc)
    case JSON => fmts.json(doc)
    case YAML => fmts.yaml(doc)
  }

  /** The five reads into the temporary: a value for every field, each
      present with the right type and in range, or nothing. */
  function ReadSettings(doc: Document): Option<Settings>
  {
    var test := AsU32(Lookup(doc, TestPath));
    var ip := AsString(Lookup(doc, IpPath));
    var port := AsU16(Lookup(doc, PortPath));
    var tcp := AsBool(Lookup(doc, TcpPath));
    var udp := AsBool(Lookup(doc, UdpPath));
    if test.Some? && ip.Some? && port.Some? && tcp.Some? && udp.Some?
    then Some(Settings(test.value, IpAddress(ip.value, port.value, SockMode(tcp.value, udp.value))))
    else None
  }

  /** What `deserialize` computes: the format gate, then the parser, then
      the field reads; the new value, or the error it returns. */
  function Decode(data: string, f: Serializer, parse: Parser): Expected<Settings>
  {
    if f != TOML then Err(UnsupportedFormat)
    else match parse(data)
      case Err(e) => Err(e)
      case Ok(doc) =>
        match ReadSettings(doc)
        case None => Err(DeserializeError)
        case Some(s) => Ok(s)
  }

  /** The built table holds every field at its key path and nothing else
      at the root and in `ip_address`. */
  lemma DocumentHoldsFields(s: Settings)
    ensures Stores(ToDocument(s), s) && Holds(ToDocument(s), s)
    ensures ToDocument(s)["ip_address"].Table?
    ensures ToDocument(s)["ip_address"].entries.Keys == {"ip", "port", "sock_mode"}
  {
  }

  /** The reads succeed with `s` exactly when every key path holds the
      corresponding field of `s`; they fail exactly when some field is
      missing, has another type or is out of its type's range. */
  lemma ReadSettingsExact(doc: Document, s: Settings)
    ensures ReadSettings(doc) == Some(s) <==> Holds(doc, s)
    ensures ReadSettings(doc).None? <==>
      || AsU32(Lookup(doc, TestPath)).None?
      || AsString(Lookup(doc, IpPath)).None?
      || AsU16(Lookup(doc, PortPath)).None?
      || AsBool(Lookup(doc, TcpPath)).None?
      || AsBool(Lookup(doc, UdpPath)).None?
  {
  }

  /** Reading the table `serialize` builds gives back the same value. */
  lemma ReadAfterBuild(s: Settings)
    ensures ReadSettings(ToDocument(s)) == Some(s)
  {
  }

  /** The reads are permissive: `test = true` reads as 1 and `tcp = 1`,
      `udp = 0` read as true and false. */
  lemma PermissiveReads(ip: string)
    ensures ReadSettings(map[
      "test" := Boolean(true),
      "ip_address" := Table(map[
        "ip" := Text(ip),
        "port" := Integer(80),
        "sock_mode" := Table(map["tcp" := Integer(1), "udp" := Integer(0)])
      ])
    ]) == Some(Settings(1, IpAddress(ip, 80, SockMode(true, false))))
  {
  }

  /** Every outcome of `deserialize`: only TOML is accepted; a parser error
      is passed on unchanged; a missing or mistyped field gives the
      deserialization error; otherwise the value is the one the document
      holds at the five key paths. */
  lemma DecodeCases(data: string, f: Serializer, parse: Parser, s: Settings)
    ensures f != TOML ==> Decode(data, f, parse) == Err(UnsupportedFormat)
    ensures f == TOML && parse(data).Err? ==> Decode(data, f, parse) == Err(parse(data).error)
    ensures (f == TOML && parse(data).Ok? && ReadSettings(parse(data).value).None?) ==>
              Decode(data, f, parse) == Err(DeserializeError)
    ensures Decode(data, f, parse) == Ok(s) <==> f == TOML && parse(data).Ok? && Holds(parse(data).value, s)
  {
  }

  /** Writing TOML and reading it back restores the value, for any parser
      that reads back what the TOML formatter writes. */
  lemma TomlRoundTrip(s: Settings, fmts: Formatters, parse: Parser)
    requires parse(fmts.toml(ToDocument(s))) == Ok(ToDocument(s))
    ensures Decode(Render(TOML, fmts, ToDocument(s)), TOML, parse) == Ok(s)
  {
  }

  /** JSON and YAML output can never be read back: `deserialize` refuses
      both tags whatever the text. */
  lemma OnlyTomlReadsBack(s: Settings, f: Serializer, fmts: Formatters, parse: Parser)
    requires f != TOML
    ensures Decode(Render(f, fmts, ToDocument(s)), f, parse) == Err(UnsupportedFormat)
  {
  }

  class TestConfigData {
    var test: U32
    var ipAddress: IpAddress

    function Value(): Settings
      reads this
    {
      Settings(test, ipAddress)
    }

    /** Default construction applies the member initialisers. */
    constructor ()
      ensures Value() == Defaults
      ensures test == 0 && ipAddress.ip == "127.0.0.1" && ipAddress.port == 25565
      ensures ipAddress.sockMode.tcp && !ipAddress.sockMode.udp
    {
      test := 0;
      ipAddress := IpAddress("127.0.0.1", 25565, SockMode(true, false));
    }

    /** `serialize(Serializer) const`: always succeeds, renders the one
        table of the current value with the formatter the tag names. */
    function Serialize(f: Serializer, fmts: Formatters): (r: Expected<string>)
      reads this
      ensures r.Ok?
      ensures r.value == Render(f, fmts, ToDocument(Value()))
    {
      Ok(Render(f, fmts, ToDocument(Value())))
    }

    /** `deserialize(string_view, Serializer)`: stages every field in a
        fresh temporary and copies it into the receiver only when all five
        reads succeeded; every error leaves the receiver as it was. */
    method Deserialize(data: string, f: Serializer, parse: Parser) returns (r: Outcome)
      modifies this
      ensures Decode(data, f, parse).Ok? ==> r == Pass && Value() == Decode(data, f, parse).value
      ensures Decode(data, f, parse).Err? ==> r == Fail(Decode(data, f, parse).error) && Value() == old(Value())
    {
      if f != TOML {
        return Fail(UnsupportedFormat);
      }
      var parsed := parse(data);
      if parsed.Err? {
        return Fail(parsed.error);
      }
      var input := parsed.value;
      var temp := new TestConfigData();
      var test := AsU32(Lookup(input, TestPath));
      if test.None? {
        return Fail(DeserializeError);
      }
      temp.test := test.value;
      var ip := AsString(Lookup(input, IpPath));
      if ip.None? {
        return Fail(DeserializeError);
      }
      var port := AsU16(Lookup(input, PortPath));
      if port.None? {
        return Fail(DeserializeError);
      }
      var tcp := AsBool(Lookup(input, TcpPath));
      if tcp.None? {
        return Fail(DeserializeError);
      }
      var udp := AsBool(Lookup(input, UdpPath));
      if udp.None? {
        return Fail(DeserializeError);
      }
      temp.ipAddress := IpAddress(ip.value, port.value, SockMode(tcp.value, udp.value));
      this.test, this.ipAddress := temp.test, temp.ipAddress;
      r := Pass;
    }
  }

  /** The test schema derives, through its base class, from both
      interfaces: its `serialize` and `deserialize` are declared `override`. */
  const TestConfigDataBases: set<Interface> := {Serializable, Deserializable}

  lemma TestConfigDataIsSerde()
    ensures SerdeType(TestConfigDataBases)
  {
  }
}
