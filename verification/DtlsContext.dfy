/** Contexts and sessions of src/dtls.c as holders of mbed TLS sub-objects: whatever step
    fails, exactly what was initialised is freed, once. */
module DtlsContext {
  import opened Portability
  import opened Resources
  import opened Dtls

  /** What a context (or a session) may own. */
  datatype Kind =
    | ContextStruct | Entropy | CtrDrbg | SslConfig | Certificate | PrivateKey | CookieCtx | PinnedHash
    | SessionStruct | SslContext

  datatype Part = Part(kind: Kind, owner: nat)

  /** The steps of sc_dtls_context_create and sc_dtls_session_create that can fail. */
  datatype Fault =
    | CallocContext | Seed | ConfigDefaults | ParseCertificate | ParseKey | OwnCertificate | CookieSetup | MallocPin
    | CallocSession | SslSetup | TransportId | NonBlocking

  /** dtls_context_t: the flags say which sub-objects have been initialised. */
  class Context {
    const id: nat
    const role: Role
    var pin: Option<seq<nat>>
    var pinLength: nat
    var initialized: bool
    var rngInitialized: bool
    var configInitialized: bool
    var certInitialized: bool
    var pkeyInitialized: bool
    var cookieInitialized: bool

    constructor (id: nat, role: Role)
      ensures this.id == id && this.role == role
      ensures !initialized && pin.None? && pinLength == 0
      ensures !rngInitialized && !configInitialized && !certInitialized && !pkeyInitialized && !cookieInitialized
    {
      this.id, this.role, pin, pinLength := id, role, None, 0;
      initialized, rngInitialized, configInitialized := false, false, false;
      certInitialized, pkeyInitialized, cookieInitialized := false, false, false;
    }

    /** What the flags account for. */
    predicate Owns(p: Part)
      reads this
    {
      && p.owner == id
      && match p.kind
         case ContextStruct => true
         case Entropy => rngInitialized
         case CtrDrbg => rngInitialized
         case SslConfig => configInitialized
         case Certificate => certInitialized
         case PrivateKey => pkeyInitialized
         case CookieCtx => cookieInitialized
         case PinnedHash => pin.Some?
         case _ => false
    }

    /** Lines 341-355. */
    method DestroyServerParts(ledger: Ledger<Part>)
      requires forall p :: Owns(p) ==> p in ledger.live
      modifies ledger
      ensures forall p :: p in ledger.live <==>
                p in old(ledger.live)
                && !(Owns(p) && (p.kind.SslConfig? || p.kind.Certificate? || p.kind.PrivateKey? || p.kind.CookieCtx?))
    {
      ledger.ReleaseIf(configInitialized, Part(SslConfig, id));
      ledger.ReleaseIf(certInitialized, Part(Certificate, id));
      ledger.ReleaseIf(pkeyInitialized, Part(PrivateKey, id));
      ledger.ReleaseIf(cookieInitialized, Part(CookieCtx, id));
    }

    /** sc_dtls_context_destroy: frees each owned part once and nothing else; NULL is ignored. */
    static method Destroy(ctx: Context?, ledger: Ledger<Part>)
      requires ctx != null ==> forall p :: ctx.Owns(p) ==> p in ledger.live
      modifies ledger
      ensures forall p :: p in ledger.live <==> p in old(ledger.live) && !(ctx != null && ctx.Owns(p))
    {
      if ctx == null {
        return;
      }
      ctx.DestroyServerParts(ledger);
      ledger.ReleaseIf(ctx.rngInitialized, Part(CtrDrbg, ctx.id));
      ledger.ReleaseIf(ctx.rngInitialized, Part(Entropy, ctx.id));
      ledger.ReleaseIf(ctx.pin.Some?, Part(PinnedHash, ctx.id));
      ledger.Release(Part(ContextStruct, ctx.id));
    }
  }

  /** A pin is kept only for a client, and only when the caller says it is 32 bytes long. */
  predicate Pins(role: Role, pin: Option<seq<nat>>, pinLength: nat) {
    role.ClientRole? && pin.Some? && pinLength == 32
  }

  /** When sc_dtls_context_create returns NULL. */
  predicate CreateFails(started: bool, role: Role, hasCert: bool, hasKey: bool, pin: Option<seq<nat>>,
                        pinLength: nat, faults: set<Fault>) {
    || !started
    || CallocContext in faults || Seed in faults || ConfigDefaults in faults
    || (role.ServerRole? && (!hasCert || !hasKey || ParseCertificate in faults || ParseKey in faults
                         || OwnCertificate in faults || CookieSetup in faults))
    || (Pins(role, pin, pinLength) && MallocPin in faults)
  }

  /** sc_dtls_context_create, with its error label. Every part it takes is in the flags. */
  method ContextCreate(started: bool, role: Role, hasCert: bool, hasKey: bool, pin: Option<seq<nat>>,
                       pinLength: nat, faults: set<Fault>, id: nat, ledger: Ledger<Part>)
    returns (ctx: Context?)
    requires forall p :: p in ledger.live ==> p.owner != id
    requires Pins(role, pin, pinLength) ==> |pin.value| >= 32
    modifies ledger
    ensures ctx == null <==> CreateFails(started, role, hasCert, hasKey, pin, pinLength, faults)
    ensures ctx == null ==> ledger.live == old(ledger.live)
    ensures ctx != null ==>
              && fresh(ctx) && ctx.id == id && ctx.role == role && ctx.initialized
              && (forall p :: p in ledger.live <==> p in old(ledger.live) || ctx.Owns(p))
              && ctx.rngInitialized && ctx.configInitialized
              && ctx.certInitialized == ctx.pkeyInitialized == ctx.cookieInitialized == role.ServerRole?
              && ctx.pin == (if role == ClientRole && pin.Some? && pinLength == 32 then Some(pin.value[..32]) else None)
              && (ctx.pin.Some? ==> ctx.pinLength == 32)
              && (forall p :: p in ledger.live <==>
                    || p in old(ledger.live)
                    || (p.owner == id
                        && match p.kind
                           case ContextStruct => true
                           case Entropy => true
                           case CtrDrbg => true
                           case SslConfig => true
                           case Certificate => role == ServerRole
                           case PrivateKey => role == ServerRole
                           case CookieCtx => role == ServerRole
                           case PinnedHash => role == ClientRole && pin.Some? && pinLength == 32
                           case SessionStruct => false
                           case SslContext => false))
  {
    if !started || CallocContext in faults {
      return null;
    }
    ledger.Acquire(Part(ContextStruct, id));
    var c := new Context(id, role);
    label error: {
      var ok := SetUpCommon(c, faults, ledger);
      if !ok {
        break error;
      }
      if role.ServerRole? {
        if !hasCert || !hasKey {
          break error;
        }
        ok := SetUpServer(c, faults, ledger);
        if !ok {
          break error;
        }
      }
      if role.ClientRole? && pin.Some? && pinLength == 32 {
        if MallocPin in faults {
          break error;
        }
        ledger.Acquire(Part(PinnedHash, id));
        c.pin, c.pinLength := Some(pin.value[..32]), 32;
      }
      c.initialized := true;
      return c;
    }
    Context.Destroy(c, ledger);
    assert forall p :: p in ledger.live <==> p in old(ledger.live);
    ctx := null;
  }

  /** Random numbers and configuration (lines 231-254); false is `goto error`. */
  method SetUpCommon(c: Context, faults: set<Fault>, ledger: Ledger<Part>) returns (ok: bool)
    requires !c.rngInitialized && !c.configInitialized
    requires forall p :: p in ledger.live && p.owner == c.id ==> c.Owns(p)
    modifies c`rngInitialized, c`configInitialized, ledger
    ensures forall p :: p in ledger.live <==> p in old(ledger.live) || (c.Owns(p) && !old(c.Owns(p)))
    ensures forall p :: old(c.Owns(p)) ==> c.Owns(p)
    ensures ok <==> Seed !in faults && ConfigDefaults !in faults
    ensures ok ==> c.rngInitialized && c.configInitialized
  {
    ledger.Acquire(Part(Entropy, c.id));
    ledger.Acquire(Part(CtrDrbg, c.id));
    c.rngInitialized := true;
    if Seed in faults {
      return false;
    }
    ledger.Acquire(Part(SslConfig, c.id));
    c.configInitialized := true;
    ok := ConfigDefaults !in faults;
  }

  /** The server's certificate, key and cookies (lines 266-299); false is `goto error`. */
  method SetUpServer(c: Context, faults: set<Fault>, ledger: Ledger<Part>) returns (ok: bool)
    requires !c.certInitialized && !c.pkeyInitialized && !c.cookieInitialized
    requires forall p :: p in ledger.live && p.owner == c.id ==> c.Owns(p)
    modifies c`certInitialized, c`pkeyInitialized, c`cookieInitialized, ledger
    ensures forall p :: p in ledger.live <==> p in old(ledger.live) || (c.Owns(p) && !old(c.Owns(p)))
    ensures forall p :: old(c.Owns(p)) ==> c.Owns(p)
    ensures ok <==> ParseCertificate !in faults && ParseKey !in faults
                    && OwnCertificate !in faults && CookieSetup !in faults
    ensures ok ==> c.certInitialized && c.pkeyInitialized && c.cookieInitialized
  {
    ledger.Acquire(Part(Certificate, c.id));
    c.certInitialized := true;
    ledger.Acquire(Part(PrivateKey, c.id));
    c.pkeyInitialized := true;
    if ParseCertificate in faults || ParseKey in faults || OwnCertificate in faults {
      return false;
    }
    ledger.Acquire(Part(CookieCtx, c.id));
    c.cookieInitialized := true;
    ok := CookieSetup !in faults;
  }

  /** A context that was created and destroyed leaves nothing behind. */
  method CreateThenDestroy(started: bool, role: Role, hasCert: bool, hasKey: bool, pin: Option<seq<nat>>,
                           pinLength: nat, faults: set<Fault>, id: nat, ledger: Ledger<Part>)
    requires forall p :: p in ledger.live ==> p.owner != id
    requires Pins(role, pin, pinLength) ==> |pin.value| >= 32
    modifies ledger
    ensures ledger.live == old(ledger.live)
  {
    var ctx := ContextCreate(started, role, hasCert, hasKey, pin, pinLength, faults, id, ledger);
    Context.Destroy(ctx, ledger);
    assert forall p :: p in ledger.live <==> p in old(ledger.live);
  }

  /** What a session owns; None stands for NULL. */
  function SessionParts(session: Option<nat>): set<Part> {
    if session.None? then {} else {Part(SessionStruct, session.value), Part(SslContext, session.value)}
  }

  /** sc_dtls_session_create: each failing step after the allocation destroys the session. */
  method SessionCreate(ctx: Context?, fdOpen: bool, hasAddr: bool, faults: set<Fault>, id: nat, ledger: Ledger<Part>)
    returns (session: Option<nat>)
    requires forall p :: p in ledger.live ==> p.owner != id
    modifies ledger
    ensures session == if ctx != null && fdOpen && CallocSession !in faults && SslSetup !in faults
                          && (ctx.role.ServerRole? && hasAddr ==> TransportId !in faults) && NonBlocking !in faults
                       then Some(id) else None
    ensures ledger.live == old(ledger.live) + SessionParts(session)
    ensures forall p :: p in ledger.live <==>
              p in old(ledger.live) || (session.Some? && p.owner == id && (p.kind.SessionStruct? || p.kind.SslContext?))
  {
    if ctx == null || !fdOpen {
      return None;
    }
    if CallocSession in faults {
      return None;
    }
    ledger.Acquire(Part(SessionStruct, id));
    ledger.Acquire(Part(SslContext, id));
    if SslSetup in faults {
      SessionDestroy(Some(id), ledger);
      return None;
    }
    if ctx.role.ServerRole? && hasAddr {
      if TransportId in faults {
        SessionDestroy(Some(id), ledger);
        return None;
      }
    }
    if NonBlocking in faults {
      SessionDestroy(Some(id), ledger);
      return None;
    }
    session := Some(id);
  }

  /** sc_dtls_session_destroy; NULL is ignored. */
  method SessionDestroy(session: Option<nat>, ledger: Ledger<Part>)
    requires SessionParts(session) <= ledger.live
    modifies ledger
    ensures ledger.live == old(ledger.live) - SessionParts(session)
  {
    if session.None? {
      return;
    }
    ledger.Release(Part(SslContext, session.value));
    ledger.Release(Part(SessionStruct, session.value));
  }
}
