/** What a Token-2022 mint carries after its base layout, read entry by entry
    (webapp/backend/mint_validator.py). */
module MintTlv {
  import opened Solana
  import opened Bytes

  datatype Owner = TokenProgram | Token2022 | Another

  const MINT_SIZE: nat := 82
  const INITIALIZED: nat := 45
  const FREEZE_OPTION: nat := 46
  const BASE: nat := 165
  const MINT_TYPE: Byte := 1
  const DEFAULT_STATE: nat := 6
  const NON_TRANSFERABLE: nat := 9
  const PERMANENT_DELEGATE: nat := 12
  const METADATA: nat := 19
  const CONFIDENTIAL_MINT_BURN: nat := 24
  const PAUSABLE: nat := 26
  const PERMISSIONED_BURN: nat := 28
  const PAUSED: nat := 32
  const FROZEN: Byte := 2

  /** `data[from:from + length]`, as far as the data goes. */
  function Slice(data: seq<Byte>, from: nat, length: nat): seq<Byte>
    requires from <= |data|
  {
    if from + length <= |data| then data[from..from + length] else data[from..]
  }

  // --- Walking the entries ----------------------------------------------------------------

  datatype Extension = Extension(kind: nat, value: seq<Byte>)

  /** What stands at an index: the end or padding, an entry the data ends in the middle
      of, or an entry and the index after it. */
  datatype Reading = Nothing | CutShort(part: Extension) | Whole(entry: Extension, after: nat)

  function ReadAt(data: seq<Byte>, index: nat): (r: Reading)
    ensures r.Whole? ==> index < r.after <= |data|
  {
    if index + 4 > |data| then Nothing
    else
      var kind, length := U16(data, index), U16(data, index + 2);
      if kind == 0 then Nothing
      else
        var value := Slice(data, index + 4, length);
        if |value| < length then CutShort(Extension(kind, value))
        else Whole(Extension(kind, value), index + 4 + length)
  }

  /** The whole entries, and the one the data ends in the middle of, if any. */
  datatype Walked = Walked(entries: seq<Extension>, cut: Option<Extension>)

  function Walk(data: seq<Byte>, index: nat): Walked
    decreases |data| - index
  {
    match ReadAt(data, index)
    case Nothing => Walked([], None)
    case CutShort(part) => Walked([], Some(part))
    case Whole(entry, after) =>
      var rest := Walk(data, after);
      Walked([entry] + rest.entries, rest.cut)
  }

  lemma Tail(e: Extension, rest: seq<Extension>)
    ensures ([e] + rest)[0] == e && ([e] + rest)[1..] == rest
  {
  }

  // --- Can it be burned? -------------------------------------------------------------------

  datatype Blocker = NotAMint | Unreadable | ConfidentialMintBurn | PermissionedBurn | Paused

  predicate IsPaused(value: seq<Byte>) {
    |value| > PAUSED && value[PAUSED] != 0
  }

  /** Why one extension refuses the burn. */
  function Refusal(e: Extension): Option<Blocker> {
    if e.kind == CONFIDENTIAL_MINT_BURN then Some(ConfidentialMintBurn)
    else if e.kind == PERMISSIONED_BURN then Some(PermissionedBurn)
    else if e.kind == PAUSABLE && IsPaused(e.value) then Some(Paused)
    else None
  }

  function FirstRefusal(entries: seq<Extension>): Option<Blocker> {
    if entries == [] then None
    else if Refusal(entries[0]).Some? then Refusal(entries[0])
    else FirstRefusal(entries[1..])
  }

  function BlockerOf(w: Walked): Option<Blocker> {
    if FirstRefusal(w.entries).Some? then FirstRefusal(w.entries)
    else if w.cut.Some? then Some(Unreadable)
    else None
  }

  function BlockerIn(owner: Owner, data: seq<Byte>): Option<Blocker> {
    if owner == TokenProgram then None
    else if owner != Token2022 || |data| < MINT_SIZE then Some(NotAMint)
    else if |data| <= BASE then None
    else if data[BASE] != MINT_TYPE then Some(NotAMint)
    else BlockerOf(Walk(data, BASE + 1))
  }

  method BurnBlocker(owner: Owner, data: seq<Byte>) returns (blocker: Option<Blocker>)
    ensures blocker == BlockerIn(owner, data)
  {
    if owner == TokenProgram { return None; }
    if owner != Token2022 { return Some(NotAMint); }
    if |data| < MINT_SIZE { return Some(NotAMint); }
    if |data| <= BASE { return None; }
    if data[BASE] != MINT_TYPE { return Some(NotAMint); }
    ghost var whole := BlockerOf(Walk(data, BASE + 1));
    var index: nat := BASE + 1;
    while true
      invariant whole == BlockerOf(Walk(data, index))
      decreases |data| - index
    {
      match ReadAt(data, index)
      case Nothing => return None;
      case CutShort(_) => return Some(Unreadable);
      case Whole(entry, after) =>
      Tail(entry, Walk(data, after).entries);
      if entry.kind == CONFIDENTIAL_MINT_BURN { return Some(ConfidentialMintBurn); }
      if entry.kind == PERMISSIONED_BURN { return Some(PermissionedBurn); }
      if entry.kind == PAUSABLE && IsPaused(entry.value) { return Some(Paused); }
      index := after;
    }
  }

  /** A burn is not refused exactly when no extension refuses it. */
  lemma {:induction false} RefusedByOne(entries: seq<Extension>)
    ensures FirstRefusal(entries).Some? <==> exists i :: 0 <= i < |entries| && Refusal(entries[i]).Some?
    ensures forall i | 0 <= i < |entries| && Refusal(entries[i]).Some?
            && (forall j | 0 <= j < i :: Refusal(entries[j]).None?) ::
              FirstRefusal(entries) == Refusal(entries[i])
  {
    if entries != [] && Refusal(entries[0]).None? {
      RefusedByOne(entries[1..]);
      forall i | 0 <= i < |entries| && Refusal(entries[i]).Some? && (forall j | 0 <= j < i :: Refusal(entries[j]).None?)
        ensures FirstRefusal(entries) == Refusal(entries[i])
      {
        assert entries[1..][i - 1] == entries[i];
        assert forall j | 0 <= j < i - 1 :: entries[1..][j] == entries[j + 1];
      }
      if exists i :: 0 <= i < |entries| && Refusal(entries[i]).Some? {
        var i :| 0 <= i < |entries| && Refusal(entries[i]).Some?;
        assert entries[1..][i - 1] == entries[i];
      }
    }
  }

  // --- The issuer's powers --------------------------------------------------------------------

  datatype Flag = FreezeAuthority | MintAuthority | PermanentDelegate | NonTransferable | FrozenByDefault | Pausable

  /** A key that is there and is not all zeros. */
  predicate HasKey(value: seq<Byte>) {
    var key := Slice(value, 0, 32);
    key != [] && !(|key| == 32 && forall i | 0 <= i < 32 :: key[i] == 0)
  }

  function FlagOf(e: Extension): seq<Flag> {
    if e.kind == PERMANENT_DELEGATE && HasKey(e.value) then [PermanentDelegate]
    else if e.kind == NON_TRANSFERABLE then [NonTransferable]
    else if e.kind == DEFAULT_STATE && e.value != [] && e.value[0] == FROZEN then [FrozenByDefault]
    else if e.kind == PAUSABLE && (HasKey(e.value) || IsPaused(e.value)) then [Pausable]
    else []
  }

  function FlagsOf(entries: seq<Extension>): seq<Flag> {
    if entries == [] then [] else FlagOf(entries[0]) + FlagsOf(entries[1..])
  }

  function BaseFlags(data: seq<Byte>): seq<Flag>
    requires |data| >= MINT_SIZE
  {
    (if U32(data, FREEZE_OPTION) == 1 then [FreezeAuthority] else [])
      + (if U32(data, 0) == 1 then [MintAuthority] else [])
  }

  function FlagsIn(owner: Owner, data: seq<Byte>): Option<seq<Flag>> {
    if owner == Another || |data| < MINT_SIZE || data[INITIALIZED] == 0 then None
    else if owner == TokenProgram || |data| <= BASE then Some(BaseFlags(data))
    else if data[BASE] != MINT_TYPE then None
    else Some(BaseFlags(data) + FlagsOf(Walk(data, BASE + 1).entries))
  }

  method MintRedFlags(owner: Owner, data: seq<Byte>) returns (flags: Option<seq<Flag>>)
    ensures flags == FlagsIn(owner, data)
  {
    if owner == Another || |data| < MINT_SIZE { return None; }
    if data[INITIALIZED] == 0 { return None; }
    var found: seq<Flag> := [];
    if U32(data, FREEZE_OPTION) == 1 { found := found + [FreezeAuthority]; }
    if U32(data, 0) == 1 { found := found + [MintAuthority]; }
    assert found == BaseFlags(data);
    if owner == TokenProgram || |data| <= BASE { return Some(found); }
    if data[BASE] != MINT_TYPE { return None; }
    found := ExtensionFlags(data, found);
    flags := Some(found);
  }

  method ExtensionFlags(data: seq<Byte>, before: seq<Flag>) returns (found: seq<Flag>)
    ensures found == before + FlagsOf(Walk(data, BASE + 1).entries)
  {
    found := before;
    ghost var whole := before + FlagsOf(Walk(data, BASE + 1).entries);
    var index: nat := BASE + 1;
    while true
      invariant found + FlagsOf(Walk(data, index).entries) == whole
      decreases |data| - index
    {
      match ReadAt(data, index)
      case Nothing => Regroup(found, [], []); return;
      case CutShort(_) => Regroup(found, [], []); return;
      case Whole(entry, after) =>
      Tail(entry, Walk(data, after).entries);
      Regroup(found, FlagOf(entry), FlagsOf(Walk(data, after).entries));
      found := found + FlagOf(entry);
      index := after;
    }
  }

  lemma Regroup(a: seq<Flag>, b: seq<Flag>, c: seq<Flag>)
    ensures a + (b + c) == (a + b) + c && a + [] == a
  {
  }

  // --- The coin's name ----------------------------------------------------------------------------

  /** `count` Borsh strings from `offset`; `text` turns bytes into text. */
  method BorshStrings(data: seq<Byte>, offset: nat, count: nat, text: seq<Byte> -> string)
    returns (out: Option<seq<string>>)
    ensures out == Strings(data, offset, count, text)
  {
    var found: seq<string>, at: nat := [], offset;
    PrependedNothing(Strings(data, offset, count, text));
    for k := 0 to count
      invariant Strings(data, offset, count, text) == Prepended(found, Strings(data, at, count - k, text))
    {
      if at + 4 > |data| { return None; }
      var length := U32(data, at);
      var end := at + 4 + length;
      if end > |data| { return None; }
      var one := text(data[at + 4..end]);
      PrependedTwice(found, [one], Strings(data, end, count - k - 1, text));
      found := found + [one];
      at := end;
    }
    assert found + [] == found;
    out := Some(found);
  }

  lemma PrependedNothing(rest: Option<seq<string>>)
    ensures Prepended([], rest) == rest
  {
    if rest.Some? {
      assert [] + rest.value == rest.value;
    }
  }

  lemma PrependedTwice(a: seq<string>, b: seq<string>, rest: Option<seq<string>>)
    ensures Prepended(a, Prepended(b, rest)) == Prepended(a + b, rest)
  {
    if rest.Some? {
      assert a + (b + rest.value) == (a + b) + rest.value;
    }
  }

  function Prepended(found: seq<string>, rest: Option<seq<string>>): Option<seq<string>> {
    match rest case None => None case Some(more) => Some(found + more)
  }

  function Strings(data: seq<Byte>, offset: nat, count: nat, text: seq<Byte> -> string): Option<seq<string>>
    decreases count
  {
    if count == 0 then Some([])
    else if offset + 4 > |data| || offset + 4 + U32(data, offset) > |data| then None
    else
      var end := offset + 4 + U32(data, offset);
      Prepended([text(data[offset + 4..end])], Strings(data, end, count - 1, text))
  }

  /** The name and symbol in the metadata, after the update authority and the mint. */
  function NameIn(value: seq<Byte>, text: seq<Byte> -> string): Option<(string, string)> {
    match Strings(value, 64, 2, text)
    case None => None
    case Some(s) => if |s| == 2 then Some((s[0], s[1])) else None
  }

  /** The first metadata entry decides, whole or cut. */
  function NameOf(w: Walked, text: seq<Byte> -> string): Option<(string, string)>
    decreases |w.entries|
  {
    if w.entries != [] then
      if w.entries[0].kind == METADATA then NameIn(w.entries[0].value, text)
         else NameOf(Walked(w.entries[1..], w.cut), text)
    else if w.cut.Some? && w.cut.value.kind == METADATA then NameIn(w.cut.value.value, text)
    else None
  }

  function MintName(owner: Owner, data: seq<Byte>, text: seq<Byte> -> string): Option<(string, string)> {
    if owner != Token2022 || |data| <= BASE || data[BASE] != MINT_TYPE then None
    else NameOf(Walk(data, BASE + 1), text)
  }

  method Token2022Name(owner: Owner, data: seq<Byte>, text: seq<Byte> -> string)
    returns (name: Option<(string, string)>)
    ensures name == MintName(owner, data, text)
  {
    if owner != Token2022 || |data| <= BASE || data[BASE] != MINT_TYPE { return None; }
    name := FirstName(data, text);
  }

  method FirstName(data: seq<Byte>, text: seq<Byte> -> string) returns (name: Option<(string, string)>)
    ensures name == NameOf(Walk(data, BASE + 1), text)
  {
    ghost var whole := NameOf(Walk(data, BASE + 1), text);
    var index: nat := BASE + 1;
    while true
      invariant whole == NameOf(Walk(data, index), text)
      decreases |data| - index
    {
      match ReadAt(data, index)
      case Nothing => return None;
      case CutShort(part) =>
        if part.kind != METADATA { return None; }
        name := NameFrom(part.value, text);
        return;
      case Whole(entry, after) =>
      Tail(entry, Walk(data, after).entries);
      if entry.kind == METADATA {
        name := NameFrom(entry.value, text);
        return;
      }
      index := after;
    }
  }

  method NameFrom(value: seq<Byte>, text: seq<Byte> -> string) returns (name: Option<(string, string)>)
    ensures name == NameIn(value, text)
  {
    var strings := BorshStrings(value, 64, 2, text);
    if strings.None? { return None; }
    TwoStrings(value, 64, text);
    name := Some((strings.value[0], strings.value[1]));
  }

  lemma TwoStrings(data: seq<Byte>, offset: nat, text: seq<Byte> -> string)
    ensures var s := Strings(data, offset, 2, text); s.Some? ==> |s.value| == 2
  {
    if offset + 4 <= |data| && offset + 4 + U32(data, offset) <= |data| {
      var end := offset + 4 + U32(data, offset);
      assert var s := Strings(data, end, 1, text); s.Some? ==> |s.value| == 1;
    }
  }

  // --- Encoding ----------------------------------------------------------------------------------

  predicate Encodable(e: Extension) {
    0 < e.kind < 65_536 && |e.value| < 65_536
  }

  function Entry(e: Extension): (b: seq<Byte>)
    requires Encodable(e)
    ensures |b| == 4 + |e.value|
  {
    Bytes16(e.kind) + Bytes16(|e.value|) + e.value
  }

  function Encode(entries: seq<Extension>): seq<Byte>
    requires forall i | 0 <= i < |entries| :: Encodable(entries[i])
  {
    if entries == [] then []
    else
      assert Encodable(entries[0]);
      Entry(entries[0]) + Encode(entries[1..])
  }

  lemma EntryReadsBack(front: seq<Byte>, e: Extension, rest: seq<Byte>)
    requires Encodable(e)
    ensures ReadAt(front + (Entry(e) + rest), |front|) == Whole(e, |front + Entry(e)|)
  {
    var data, b, n := front + (Entry(e) + rest), Entry(e), |front|;
    assert data[n] == b[0] && data[n + 1] == b[1] && data[n + 2] == b[2] && data[n + 3] == b[3];
    assert b[0] == Bytes16(e.kind)[0] && b[1] == Bytes16(e.kind)[1];
    assert b[2] == Bytes16(|e.value|)[0] && b[3] == Bytes16(|e.value|)[1];
    assert data[n + 4..n + 4 + |e.value|] == b[4..] == e.value;
  }

  lemma Joined(front: seq<Byte>, a: seq<Byte>, b: seq<Byte>, c: seq<Byte>)
    ensures front + ((a + b) + c) == front + (a + (b + c)) == (front + a) + (b + c)
  {
  }

  lemma PaddingEnds(front: seq<Byte>, padding: nat)
    ensures ReadAt(front + Zeros(padding), |front|) == Nothing
  {
    var data := front + Zeros(padding);
    if padding >= 4 {
      assert data[|front|] == 0 && data[|front| + 1] == 0;
    }
  }

  /** Walking encoded entries gives them back, whatever stands before and whatever zero
      padding comes after. */
  lemma {:induction false} WalkReadsBack(front: seq<Byte>, entries: seq<Extension>, padding: nat)
    requires forall i | 0 <= i < |entries| :: Encodable(entries[i])
    ensures Walk(front + (Encode(entries) + Zeros(padding)), |front|) == Walked(entries, None)
    decreases |entries|
  {
    if entries == [] {
      assert Encode(entries) + Zeros(padding) == Zeros(padding);
      PaddingEnds(front, padding);
    } else {
      var e, rest := entries[0], Encode(entries[1..]);
      assert Encodable(e);
      Joined(front, Entry(e), rest, Zeros(padding));
      EntryReadsBack(front, e, rest + Zeros(padding));
      WalkReadsBack(front + Entry(e), entries[1..], padding);
      assert entries == [e] + entries[1..];
    }
  }

  function Account(base: seq<Byte>, entries: seq<Extension>, padding: nat): seq<Byte>
    requires |base| == BASE && forall i | 0 <= i < |entries| :: Encodable(entries[i])
  {
    base + [MINT_TYPE] + (Encode(entries) + Zeros(padding))
  }

  lemma AccountReadsBack(base: seq<Byte>, entries: seq<Extension>, padding: nat)
    requires |base| == BASE && forall i | 0 <= i < |entries| :: Encodable(entries[i])
    ensures var data := Account(base, entries, padding);
            |data| > BASE && data[BASE] == MINT_TYPE && data[..BASE] == base
              && Walk(data, BASE + 1) == Walked(entries, None)
  {
    WalkReadsBack(base + [MINT_TYPE], entries, padding);
    var data := Account(base, entries, padding);
    assert data[..BASE] == base;
  }

  lemma BaseReadsBack(data: seq<Byte>, base: seq<Byte>)
    requires |base| == BASE < |data| && data[..BASE] == base
    ensures data[INITIALIZED] == base[INITIALIZED] && BaseFlags(data) == BaseFlags(base)
  {
    assert forall i | 0 <= i < BASE :: data[..BASE][i] == data[i];
  }

  lemma ReadFrom(data: seq<Byte>, base: seq<Byte>, entries: seq<Extension>, text: seq<Byte> -> string)
    requires |base| == BASE < |data| && data[..BASE] == base && data[BASE] == MINT_TYPE
    requires Walk(data, BASE + 1) == Walked(entries, None)
    ensures BlockerIn(Token2022, data) == FirstRefusal(entries)
    ensures FlagsIn(Token2022, data) == if base[INITIALIZED] == 0 then None
            else Some(BaseFlags(base) + FlagsOf(entries))
    ensures MintName(Token2022, data, text) == NameOf(Walked(entries, None), text)
  {
    BaseReadsBack(data, base);
  }

  /** The three readers, on any list of extensions in any padding: the first refusal, all
      the flags in order, the first metadata's name. */
  lemma MintReadsBack(base: seq<Byte>, entries: seq<Extension>, padding: nat, text: seq<Byte> -> string)
    requires |base| == BASE && forall i | 0 <= i < |entries| :: Encodable(entries[i])
    ensures BlockerIn(Token2022, Account(base, entries, padding)) == FirstRefusal(entries)
    ensures FlagsIn(Token2022, Account(base, entries, padding))
            == if base[INITIALIZED] == 0 then None else Some(BaseFlags(base) + FlagsOf(entries))
    ensures MintName(Token2022, Account(base, entries, padding), text) == NameOf(Walked(entries, None), text)
  {
    AccountReadsBack(base, entries, padding);
    ReadFrom(Account(base, entries, padding), base, entries, text);
  }

  function Borsh(bytes: seq<Byte>): seq<Byte>
    requires |bytes| < 4_294_967_296
  {
    Bytes32(|bytes|) + bytes
  }

  lemma StringReadsBack(front: seq<Byte>, bytes: seq<Byte>, rest: seq<Byte>)
    requires |bytes| < 4_294_967_296
    ensures var data := front + (Borsh(bytes) + rest); var end := |front| + 4 + |bytes|;
            && end <= |data| && U32(data, |front|) == |bytes| && data[|front| + 4..end] == bytes
            && data == (front + Borsh(bytes)) + rest && |front + Borsh(bytes)| == end
  {
    Number32(front, |bytes|, bytes + rest);
    assert front + (Borsh(bytes) + rest) == front + (Bytes32(|bytes|) + (bytes + rest));
  }

  /** Metadata with a name and a symbol gives them back, whatever follows. */
  lemma MetadataReadsBack(keys: seq<Byte>, name: seq<Byte>, symbol: seq<Byte>, rest: seq<Byte>,
                          text: seq<Byte> -> string)
    requires |keys| == 64 && |name| < 4_294_967_296 && |symbol| < 4_294_967_296
    ensures NameIn(keys + (Borsh(name) + (Borsh(symbol) + rest)), text) == Some((text(name), text(symbol)))
  {
    var value := keys + (Borsh(name) + (Borsh(symbol) + rest));
    StringReadsBack(keys, name, Borsh(symbol) + rest);
    StringReadsBack(keys + Borsh(name), symbol, rest);
    var end := 64 + 4 + |name|;
    var last := end + 4 + |symbol|;
    assert Strings(value, last, 0, text) == Some([]);
    assert value == (keys + Borsh(name)) + (Borsh(symbol) + rest) && |keys + Borsh(name)| == end;
    assert Strings(value, end, 1, text) == Some([text(symbol)] + []);
    assert [text(symbol)] + [] == [text(symbol)];
    assert Strings(value, 64, 2, text) == Prepended([text(name)], Some([text(symbol)]));
    assert [text(name)] + [text(symbol)] == [text(name), text(symbol)];
  }

  // --- A mint as the program lays it out -----------------------------------------------------

  /** A key that is set is 32 bytes, not all of them zero. */
  predicate IsKey(key: Option<seq<Byte>>) {
    key.Some? ==> |key.value| == 32 && exists i :: 0 <= i < 32 && key.value[i] != 0
  }

  function KeyBytes(key: Option<seq<Byte>>): (b: seq<Byte>)
    requires IsKey(key)
    ensures |b| == 32
  {
    if key.Some? then key.value else Zeros(32)
  }

  /** A key with a number before it that says whether it is set. */
  function OptionalKey(key: Option<seq<Byte>>): (b: seq<Byte>)
    requires IsKey(key)
    ensures |b| == 36
  {
    Bytes32(if key.Some? then 1 else 0) + KeyBytes(key)
  }

  /** The base: mint authority, supply, decimals, whether it is set up, freeze authority. */
  function BaseOf(minter: Option<seq<Byte>>, supply: nat, decimals: Byte, initialized: bool,
                  freezer: Option<seq<Byte>>): (b: seq<Byte>)
    requires IsKey(minter) && IsKey(freezer) && supply < 0x1_0000_0000_0000_0000
    ensures |b| == 82
  {
    OptionalKey(minter) + (Bytes64(supply) + ([decimals, if initialized then 1 else 0] + OptionalKey(freezer)))
  }

  /** What an extension says, for those that are looked at. */
  datatype Power =
    | DefaultState(frozen: bool)
    | CannotBeMoved
    | Delegate(key: Option<seq<Byte>>)
    | Named(keys: seq<Byte>, name: seq<Byte>, symbol: seq<Byte>, more: seq<Byte>)
    | BurnsInSecret(settings: seq<Byte>)
    | CanBePaused(pauser: Option<seq<Byte>>, paused: bool)
    | BurnsByPermission(settings: seq<Byte>)
    | Unlooked(kind: nat, settings: seq<Byte>)

  ghost predicate CanBeWritten(p: Power) {
    match p
    case Delegate(key) => IsKey(key)
    case CanBePaused(key, _) => IsKey(key)
    case Named(keys, name, symbol, more) =>
      |keys| == 64 && |keys| + 4 + |name| + 4 + |symbol| + |more| < 65_536
    case BurnsInSecret(settings) => |settings| < 65_536
    case BurnsByPermission(settings) => |settings| < 65_536
    case Unlooked(kind, settings) =>
      0 < kind < 65_536 && kind !in [6, 9, 12, 19, 24, 26, 28] && |settings| < 65_536
    case _ => true
  }

  /** How it is written: the number of its kind, and what stands in it. */
  function Written(p: Power): (e: Extension)
    requires CanBeWritten(p)
    ensures Encodable(e)
  {
    match p
    case DefaultState(frozen) => Extension(6, [if frozen then 2 else 1])
    case CannotBeMoved => Extension(9, [])
    case Delegate(key) => Extension(12, KeyBytes(key))
    case Named(keys, name, symbol, more) => Extension(19, keys + (Borsh(name) + (Borsh(symbol) + more)))
    case BurnsInSecret(settings) => Extension(24, settings)
    case CanBePaused(key, paused) => Extension(26, KeyBytes(key) + [if paused then 1 else 0])
    case BurnsByPermission(settings) => Extension(28, settings)
    case Unlooked(kind, settings) => Extension(kind, settings)
  }

  /** What the holders are told of it, and why nothing could be burned. */
  function WarnsOf(p: Power): seq<Flag> {
    match p
    case DefaultState(true) => [FrozenByDefault]
    case CannotBeMoved => [NonTransferable]
    case Delegate(Some(_)) => [PermanentDelegate]
    case CanBePaused(key, paused) => if key.Some? || paused then [Pausable] else []
    case _ => []
  }

  function Forbids(p: Power): Option<Blocker> {
    match p
    case BurnsInSecret(_) => Some(ConfidentialMintBurn)
    case BurnsByPermission(_) => Some(PermissionedBurn)
    case CanBePaused(_, true) => Some(Paused)
    case _ => None
  }

  lemma KeyReadsBack(key: Option<seq<Byte>>, rest: seq<Byte>)
    requires IsKey(key)
    ensures HasKey(KeyBytes(key) + rest) <==> key.Some?
  {
    assert Slice(KeyBytes(key) + rest, 0, 32) == KeyBytes(key);
  }

  lemma PowerReadsBack(p: Power, text: seq<Byte> -> string)
    requires CanBeWritten(p)
    ensures FlagOf(Written(p)) == WarnsOf(p) && Refusal(Written(p)) == Forbids(p)
    ensures Written(p).kind == METADATA <==> p.Named?
    ensures p.Named? ==> NameIn(Written(p).value, text) == Some((text(p.name), text(p.symbol)))
  {
    match p
    case Delegate(key) =>
      KeyReadsBack(key, []);
      assert KeyBytes(key) + [] == KeyBytes(key);
    case CanBePaused(key, paused) => KeyReadsBack(key, [if paused then 1 else 0]);
    case Named(keys, name, symbol, more) => MetadataReadsBack(keys, name, symbol, more, text);
    case _ =>
  }

  function AllWritten(powers: seq<Power>): (entries: seq<Extension>)
    requires forall i | 0 <= i < |powers| :: CanBeWritten(powers[i])
    ensures |entries| == |powers| && forall i | 0 <= i < |entries| :: Encodable(entries[i])
  {
    seq(|powers|, i requires 0 <= i < |powers| => Written(powers[i]))
  }

  function AllWarnings(powers: seq<Power>): seq<Flag> {
    if powers == [] then [] else WarnsOf(powers[0]) + AllWarnings(powers[1..])
  }

  function FirstForbidden(powers: seq<Power>): Option<Blocker> {
    if powers == [] then None
    else if Forbids(powers[0]).Some? then Forbids(powers[0])
    else FirstForbidden(powers[1..])
  }

  function FirstNamed(powers: seq<Power>, text: seq<Byte> -> string): Option<(string, string)> {
    if powers == [] then None
    else if powers[0].Named? then Some((text(powers[0].name), text(powers[0].symbol)))
    else FirstNamed(powers[1..], text)
  }

  lemma {:induction false} PowersReadBack(powers: seq<Power>, text: seq<Byte> -> string)
    requires forall i | 0 <= i < |powers| :: CanBeWritten(powers[i])
    ensures FlagsOf(AllWritten(powers)) == AllWarnings(powers)
    ensures FirstRefusal(AllWritten(powers)) == FirstForbidden(powers)
    ensures NameOf(Walked(AllWritten(powers), None), text) == FirstNamed(powers, text)
  {
    if powers != [] {
      PowerReadsBack(powers[0], text);
      assert AllWritten(powers)[1..] == AllWritten(powers[1..]);
      PowersReadBack(powers[1..], text);
    }
  }

  lemma BaseTells(minter: Option<seq<Byte>>, supply: nat, decimals: Byte, initialized: bool,
                  freezer: Option<seq<Byte>>, rest: seq<Byte>)
    requires IsKey(minter) && IsKey(freezer) && supply < 0x1_0000_0000_0000_0000
    ensures var data := BaseOf(minter, supply, decimals, initialized, freezer) + rest;
            && (data[INITIALIZED] != 0 <==> initialized)
            && BaseFlags(data) == (if freezer.Some? then [FreezeAuthority] else [])
                                  + if minter.Some? then [MintAuthority] else []
  {
    hide U32, Bytes32, Bytes64, Zeros;
    var data := BaseOf(minter, supply, decimals, initialized, freezer) + rest;
    var middle := Bytes64(supply) + [decimals, if initialized then 1 else 0];
    var isMinter, isFreezer := Bytes32(if minter.Some? then 1 else 0), Bytes32(if freezer.Some? then 1 else 0);
    var front, last := OptionalKey(minter) + middle, KeyBytes(freezer) + rest;
    assert data == [] + (isMinter + (KeyBytes(minter) + (middle + (OptionalKey(freezer) + rest))));
    Number32([], if minter.Some? then 1 else 0, KeyBytes(minter) + (middle + (OptionalKey(freezer) + rest)));
    assert data == front + (isFreezer + last);
    Number32(front, if freezer.Some? then 1 else 0, last);
  }

  /** A mint of the older program is read for what its base says, and nothing refuses a
      burn of it. One of Token-2022, whose extensions start after a type byte at 165, is
      read for its base and every extension. */
  lemma MintAsWritten(minter: Option<seq<Byte>>, supply: nat, decimals: Byte, initialized: bool,
                      freezer: Option<seq<Byte>>, powers: seq<Power>, padding: nat, text: seq<Byte> -> string)
    requires IsKey(minter) && IsKey(freezer) && supply < 0x1_0000_0000_0000_0000
    requires forall i | 0 <= i < |powers| :: CanBeWritten(powers[i])
    ensures var base := BaseOf(minter, supply, decimals, initialized, freezer);
            var told := (if freezer.Some? then [FreezeAuthority] else [])
                        + if minter.Some? then [MintAuthority] else [];
            var data := base + Zeros(83) + [1] + (Encode(AllWritten(powers)) + Zeros(padding));
            && FlagsIn(TokenProgram, base) == (if initialized then Some(told) else None)
            && FlagsIn(Token2022, base) == FlagsIn(TokenProgram, base)
            && BlockerIn(TokenProgram, base) == BlockerIn(Token2022, base) == None
            && FlagsIn(Token2022, data) == (if initialized then Some(told + AllWarnings(powers)) else None)
            && BlockerIn(Token2022, data) == FirstForbidden(powers)
            && MintName(Token2022, data, text) == FirstNamed(powers, text)
  {
    var base := BaseOf(minter, supply, decimals, initialized, freezer);
    BaseTells(minter, supply, decimals, initialized, freezer, []);
    assert base + [] == base;
    BaseTells(minter, supply, decimals, initialized, freezer, Zeros(83));
    MintReadsBack(base + Zeros(83), AllWritten(powers), padding, text);
    PowersReadBack(powers, text);
  }
}
