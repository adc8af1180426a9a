/**
 * The registry plugin types of plugins/register: the node record, the resolver address,
 * the registry options and the scheme default shared by the registry implementations.
 */
module Register {
  import opened Base

  /** register.Node: the record a server publishes and a resolver reads back. */
  datatype Node = Node(id: string, address: string, advertise: string, metadata: map<string, string>)

  /** resolver.Address: only the Addr field is filled by this code. */
  datatype Address = Address(addr: string)

  /** Which register.Register implementation a server or client holds. */
  datatype RegistryRef =
    | EtcdServerRegistry                     // common.NewServerEtcdRegister()
    | EtcdClientRegistry(serviceName: string) // common.NewClientEtcdRegister(name)
    | NoRegistry
    | CustomRegistry(id: nat)

  /** register.Options (the TLS configuration is not modelled). */
  datatype RegisterOptions = RegisterOptions(
    schema: string,
    name: string,
    addrs: seq<string>,
    ttl: int,
    secure: bool,
    logger: Option<SugaredLogger>,
    username: string,
    password: string)

  /** The zero value of register.Options, as `new(register.Options)` creates it. */
  const ZeroOptions := RegisterOptions("", "", [], 0, false, None, "", "")

  /** The option closures of plugins/register/options.go, one constructor per setter. */
  datatype RegisterOption =
    | Addrs(addrs: seq<string>)
    | Username(username: string)
    | Password(password: string)
    | Secure(secure: bool)
    | TTL(ttl: int)
    | Name(name: string)
    | Schema(schema: string)
    | Logger(logger: Option<SugaredLogger>)

  /** Runs one option closure on the options. */
  function Apply(o: RegisterOptions, opt: RegisterOption): RegisterOptions
  {
    match opt
    case Addrs(a) => o.(addrs := a)
    case Username(u) => o.(username := u)
    case Password(p) => o.(password := p)
    case Secure(b) => o.(secure := b)
    case TTL(t) => o.(ttl := t)
    case Name(n) => o.(name := n)
    case Schema(s) => o.(schema := s)
    case Logger(l) => o.(logger := l)
  }

  /** Runs the option closures in order, as the `for _, o := range ops` loops do. */
  function ApplyAll(o: RegisterOptions, ops: seq<RegisterOption>): RegisterOptions
  {
    if ops == [] then o else Apply(ApplyAll(o, ops[..|ops| - 1]), ops[|ops| - 1])
  }

  const DefaultScheme := "default"

  /** The `Scheme()` rule of both registry implementations: the schema, or "default" if empty. */
  function SchemeOf(schema: string): (s: string)
    ensures s != ""
    ensures schema != "" ==> s == schema
    ensures schema == "" ==> s == DefaultScheme
  {
    if schema == "" then DefaultScheme else schema
  }
}
