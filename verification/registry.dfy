/**
  The provider registry: a map from a provider name to a provider, filled by
  `RegisterProvider` and read by `getProvider`; `InitProvider` looks up the
  configured name lower-cased. Registered names are stored as given.
 */
module Registry {
  import opened Strings

  type Registry<P> = map<string, P>

  /** The registry a process starts with. */
  function Empty<P>(): (r: Registry<P>)
    ensures forall name :: name !in r
  {
    map[]
  }

  /** `getProvider`: the provider registered under exactly `name`, or nil. */
  function GetProvider<P>(reg: Registry<P>, name: string): (r: Option<P>)
    ensures r.Some? <==> name in reg
    ensures r.Some? ==> r.value == reg[name]
  {
    if name in reg then Some(reg[name]) else None
  }

  /**
    `RegisterProvider`: afterwards `name` finds `p`, whatever was registered
    under it before, and every other name finds what it found before.
   */
  function Register<P>(reg: Registry<P>, name: string, p: P): (r: Registry<P>)
    ensures GetProvider(r, name) == Some(p)
    ensures forall other :: other != name ==> GetProvider(r, other) == GetProvider(reg, other)
    ensures r.Keys == reg.Keys + {name}
  {
    reg[name := p]
  }

  /** `InitProvider`: the provider registered under the lower-cased configured name. */
  function InitProvider<P>(reg: Registry<P>, configured: string): (r: Option<P>)
    ensures r.Some? <==> ToLower(configured) in reg
    ensures r.Some? ==> r.value == reg[ToLower(configured)]
  {
    GetProvider(reg, ToLower(configured))
  }

  /** A second registration under the same name replaces the first. */
  lemma RegisterOverwrites<P>(reg: Registry<P>, name: string, p: P, q: P)
    ensures GetProvider(Register(Register(reg, name, p), name, q), name) == Some(q)
  {
  }

  /**
    A provider registered under a name holding an upper-case letter is never
    found by `InitProvider`, whatever name is configured; one registered
    under a lower-case name is found by any spelling of that name.
   */
  lemma InitProviderFindsOnlyLowerCase<P>(reg: Registry<P>, name: string, p: P, configured: string)
    ensures !IsLower(name) && name !in reg ==> InitProvider(Register(reg, name, p), configured) == InitProvider(reg, configured)
    ensures IsLower(name) && ToLower(configured) == name ==> InitProvider(Register(reg, name, p), configured) == Some(p)
  {
    if !IsLower(name) && name !in reg {
      assert ToLower(configured) != name;
    }
  }

  /** The configured name `F5` finds the provider the F5 driver registers as `f5`. */
  lemma ConfiguredNameIsCaseInsensitive<P>(p: P)
    ensures InitProvider(Register(Empty(), "f5", p), "F5") == Some(p)
    ensures InitProvider(Register(Empty(), "F5", p), "F5") == None
  {
    assert ToLower("F5") == "f5";
  }
}
