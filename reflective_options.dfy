/** The options record that every decorator stores, the identifier tokens it may carry,
    and the normalisation of a decorator factory's single argument into that record
    (src/decorators.ts:3-10 and the conditional expression repeated at lines 20-23,
    36-39, 59-62 and 82-85). */
module ReflectiveOptions {
  import opened Wrappers

  /** A `string | symbol` token. Symbols are opaque unique values; `Sym(n)` stands for
      the n-th symbol created, which is all the identity a symbol has here. */
  datatype Ident = Str(name: string) | Sym(id: nat)

  /** `ReflectiveOptions`: a record whose only field, `identifier`, may be absent.
      The class, property, method and parameter variants are this same type. */
  datatype Options = Options(identifier: Option<Ident>)

  /** The object literal `{}`. */
  const EmptyOptions := Options(None)

  /** The optional argument `identifierOrOptions` of a decorator factory:
      a token, an options record, or nothing at all. */
  datatype Arg = Token(token: Ident) | Opts(options: Options) | NoArg

  /** The canonical options record for an argument: a token is wrapped as
      `{ identifier: token }` (the `typeof` test comes first, so the empty string is a
      token too), a record is used as it is, and an omitted argument becomes `{}`. */
  function Normalize(arg: Arg): (r: Options)
    ensures arg.Token? ==> r.identifier == Some(arg.token)
    ensures arg.Opts? ==> r == arg.options
    ensures arg.NoArg? ==> r.identifier.None?
  {
    match arg
    case Token(id) => Options(Some(id))
    case Opts(o) => o
    case NoArg => EmptyOptions
  }

  /** Annotating with `id` stores the same record as annotating with `{ identifier: id }`. */
  lemma TokenSameAsOptions(id: Ident)
    ensures Normalize(Token(id)) == Normalize(Opts(Options(Some(id))))
  {
  }

  /** Leaving the argument out stores the same record as passing `{}`. */
  lemma OmittedSameAsEmpty()
    ensures Normalize(NoArg) == Normalize(Opts(EmptyOptions))
  {
  }
}
