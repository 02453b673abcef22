# leafconf core, modelled in Dafny

leafconf is a file-backed configuration library. This model covers three
pieces of it:

- `Proxy<T>`, the observable value. It holds one value and an optional change
  handler. A write of an equal value is absorbed. A write of a different value
  is committed and then handed to the handler.
- The serialization vocabulary: the closed format tag `Serializer`
  (TOML, JSON, YAML) and the two capabilities `Serializable` and
  `Deserializable`, with the concepts that require them.
- `TestConfigData`, the schema of the test program. It has five fields.
  `serialize` renders one nested table in any of the three formats.
  `deserialize` accepts only TOML, stages every field in a temporary, and
  overwrites the receiver only when all five reads succeed.

Files: `results.dfy` (`expected<T, string>` and `expected<void, string>`),
`types.dfy` (`u16`, `u32`), `serialization.dfy`, `proxy.dfy`, `toml.dfy` (the
boundary to the TOML library) and `config_data.dfy`.

The TOML library is foreign. A document is a tree of `Toml.Node` values.
`toml::parse` is a parameter of type `string -> Expected<Document>`, and the
three renderers are parameters bundled in `Toml.Formatters`. Nothing is
assumed about any of them. The only exception is `ConfigData.TomlRoundTrip`,
which states its assumption about the parser in its `requires`.
`value<T>()` is modelled with the library's permissive conversions. A
string read takes only a string node. An integer read takes an integer
node that fits the target width, or a boolean node, read as 1 or 0. A
boolean read takes a boolean node, or an integer node, read as "not zero".

The proxy's handler is represented by whether it is present (`changed`) and
by a ghost log `fired` of the arguments it has received. The class invariant
`Proxy.Coherent` says three things. A proxy without a handler never fires.
The last value fired is the value held now. The handler never receives the
same value twice in a row.

Round trips hold only for TOML. `serialize` renders all three formats, but
`deserialize` refuses JSON and YAML whatever the text
(`ConfigData.OnlyTomlReadsBack`). A round trip through JSON or YAML is
therefore impossible in this code. The model follows the code.

## Model

| member | source | states |
|---|---|---|
| `Serialization.Ordinal` | include/leafconf/serialization.h:12-17 | each enumerator has the numeric value of its declaration position, below 3 |
| `Serialization.SerializerIsClosed` | include/leafconf/serialization.h:12-17 | the tag has exactly three distinct values with distinct numbers, and every value is one of them |
| `Serialization.SerdeTypeNeedsBoth` | include/leafconf/serialization.h:33-40 | a type is a serde type exactly when it derives from both interfaces; removing either one breaks it |
| `ConfigData.TestConfigDataIsSerde` | tests/test-main.c++:10-14 | assumes the unseen base class `AbstractConfigData` derives from both interfaces (the schema overrides `serialize` and `deserialize`); under that assumption the schema is a serde type |
| `Proxy.Proxy.constructor` | include/leafconf/proxy.h:31-35 | stores the given value and handler, fires nothing, and the state is coherent |
| `Proxy.Proxy.Get` | include/leafconf/proxy.h:37-38 | returns the stored value, which is also the last value given to the handler; reads only |
| `Proxy.Proxy.Deref` | include/leafconf/proxy.h:40-41 | returns the same value as `Get`; reads only |
| `Proxy.Proxy.Set` | include/leafconf/proxy.h:43-51 | an equal value changes nothing and fires nothing; a different value is stored and then fired exactly once if a handler is present; the handler is kept and coherence is preserved |
| `Proxy.Proxy.CopyAssign` | include/leafconf/proxy.h:53-58 | behaves as `set(other.get())`; `other` keeps its value and the handler is not transferred |
| `Proxy.Proxy.MoveAssign` | include/leafconf/proxy.h:60-65 | identical to copy assignment: `set(other.get())`, the source keeps its value, the handler stays |
| `Proxy.SetSpec` | include/leafconf/proxy.h:43-51 | after `set(v)` the value is `v`; the handler fires, once and with `v`, exactly when `v` differs from the old value and a handler exists |
| `Proxy.SetIdempotent` | include/leafconf/proxy.h:43-51 | two `set(v)` in a row equal one; together they fire at most once |
| `Proxy.SetKeepsCoherent` | include/leafconf/proxy.h:43-51 | `set` preserves the invariant: no firing without a handler, the last value fired is the held value, no value is fired twice in a row |
| `Proxy.ChangesNoStutter` | include/leafconf/proxy.h:43-51 | the values a run of writes changes to never repeat consecutively, the first differs from the start value, and there are at most as many as there are writes |
| `Proxy.SetAllLog` | include/leafconf/proxy.h:43-51 | over any run of writes, the handler receives exactly the writes that changed the value, in order; the final value is the last write; the handler is never lost |
| `Toml.At` | tests/test-main.c++:67-73 | an empty key path gives the node itself; a key applied to a non-table node, or a key the table lacks, gives an empty view; otherwise the lookup continues in the child |
| `Toml.AsU32` | tests/test-main.c++:67 | `value<u32>()` yields `x` exactly when the node is the integer `x` or a boolean read as `x` (1 or 0); it is empty for an out-of-range integer and for every other kind |
| `Toml.AsU16` | tests/test-main.c++:70 | `value<u16>()` yields `x` exactly when the node is the integer `x` or a boolean read as `x` (1 or 0); it is empty for an integer outside 0..65535 and for every other kind |
| `Toml.AsString` | tests/test-main.c++:69 | `value<string>()` yields a value exactly for a string node, and that value is the node's |
| `Toml.AsBool` | tests/test-main.c++:72-73 | `value<bool>()` yields `b` exactly when the node is the boolean `b` or an integer whose being non-zero is `b`; it is empty for every other kind |
| `ConfigData.TestConfigData.constructor` | tests/test-main.c++:16-26 | default construction gives `test = 0`, `ip = "127.0.0.1"`, `port = 25565`, `tcp = true`, `udp = false` |
| `ConfigData.ToDocument` | tests/test-main.c++:31-41 | the built table has exactly the root keys `test` and `ip_address` |
| `ConfigData.DocumentHoldsFields` | tests/test-main.c++:31-41 | each field sits at its key path (`test`, `ip_address.ip`, `ip_address.port`, `ip_address.sock_mode.tcp`, `ip_address.sock_mode.udp`) as a node of its own kind, which the reads accept; `ip_address` has exactly `ip`, `port`, `sock_mode` |
| `ConfigData.TestConfigData.Serialize` | tests/test-main.c++:29-52 | const (a function of the receiver); always succeeds; the text is the chosen formatter applied to the table of the current value |
| `ConfigData.ReadSettingsExact` | tests/test-main.c++:66-75 | the five reads succeed with a value exactly when every key path holds a node the library reads as that field (integers and booleans convert into each other, integers must be in range); they fail exactly when one read fails |
| `ConfigData.PermissiveReads` | tests/test-main.c++:66-75 | a document with `test = true`, `tcp = 1` and `udp = 0` is accepted as test 1, tcp true, udp false |
| `ConfigData.ReadAfterBuild` | tests/test-main.c++:31-75 | reading the table `serialize` builds gives back the value it was built from |
| `ConfigData.DecodeCases` | tests/test-main.c++:54-81 | non-TOML gives "unsupported deserialization format"; a parser error is passed on; a failed read gives the deserialization error; success happens exactly when the parsed document holds nodes the reads accept as the fields |
| `ConfigData.TestConfigData.Deserialize` | tests/test-main.c++:54-81 | on success, returns success and the receiver holds the document's five fields; on every error, returns it and the receiver is unchanged |
| `ConfigData.TomlRoundTrip` | tests/test-main.c++:29-81 | if the parser reads back what the TOML formatter writes, deserializing serialized TOML restores the value |
| `ConfigData.OnlyTomlReadsBack` | tests/test-main.c++:44-57 | JSON or YAML output fed back with its own tag is always refused as an unsupported format |

## Left out

- `include/leafconf/static.h`: `Config::load` and `save` are declared without bodies. `StaticCOnfigUnderlying` has no behaviour. There is nothing to model.
- The `Config<T>` store is not part of this model. Its implementation is not among the files covered. This covers the saving policy, `revert_to_defaults`, `save`, file loading and the defaults fallback.
- Filesystem I/O, the observer/subject protocol and logging are not in the covered code.
- `AbstractConfigData`, the schema's base class, is not part of this model. `*this = temp` would also copy any state that base class holds.
- The TOML library: `toml::parse`, the formatters and the document type are abstract. Float, date, time and array nodes are all `Toml.Other`.
- Toml.AsU32: a float node read as an integer is not modelled. It is a `Toml.Other` node, which the model always refuses.
- Toml.AsU16: a float node read as an integer is not modelled, as for `Toml.AsU32`.
- Toml.AsBool: only boolean and integer nodes are read; any other conversion the library may allow is not modelled.
- `leaf::Err` (from a header that is not part of this model) is assumed to return a single argument unchanged. So a parser error reaches the caller as the parser's own message (`ConfigData.Decode`, `ConfigData.DecodeCases`). If `leaf::Err` treats braces in that message as a format pattern, the text could differ.
- Proxy handler effects: the model records only the handler's arguments. Whatever the handler does, including writing back into the proxy, is not modelled.
- `leaf::eq` (from `leaf/math.h`, not part of this model) is modelled as `==`. Any tolerance it may apply, for example to floats, is not modelled.
- The `std::function` machinery is reduced to the flag `changed`. Deleted copy and move constructors have no Dafny counterpart, because Dafny objects are references and are never copied.
- `ConfigData.BadOptionalAccess`: the text of `std::bad_optional_access::what()` depends on the standard library. The model fixes one common text. `leaf::Err`'s formatting is taken to put that text in place of `{}`.
- The `default: leaf::unreachable()` branch of `serialize` cannot be reached, since the tag is a three-case datatype.
- The test harness and `main`, apart from the default values they assert.
