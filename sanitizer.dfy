/**
 * Metadata sanitisation: `_sanitizeID`, `_prepareBlockInfo` (defaults and the
 * bound block function), `_prepareExtensionInfo` and `_prepareDeviceInfo`.
 */
module Sanitizer {
  import opened Wrappers
  import opened JsValues
  import opened Dispatch
  import opened Errors
  import opened Menus

  /** The values of `BlockType`. */
  datatype BlockType = Boolean | Button | Command | Conditional | Event | Hat | Loop | Reporter

  /** One entry of a block's `arguments` object. */
  datatype ArgumentInfo = ArgumentInfo(argumentType: string, menu: Option<string>, defaultValue: Js)

  /**
   * A block's metadata as an extension supplies it. `None` (or `Undefined`)
   * stands for a property the extension left out; `others` holds every other
   * property, which preparation copies unchanged.
   */
  datatype RawBlock = RawBlock(
    opcode: Js,
    text: Js,
    blockType: Option<BlockType>,
    terminal: Option<bool>,
    blockAllThreads: Option<bool>,
    arguments: Option<map<string, ArgumentInfo>>,
    func: Js,
    isDynamic: bool,
    others: map<string, Js>)

  /** A block made of no properties at all. */
  const NoProperties := RawBlock(Undefined, Undefined, None, None, None, None, Undefined, false, map[])

  /** One element of an extension's `blocks` array: a string (`'---'` is a separator) or an object. */
  datatype RawEntry = TextEntry(s: string) | BlockEntry(block: RawBlock)

  /** What a bound block function forwards to, fixed when the block is prepared. */
  datatype CallTarget =
    /** `dispatch.call(serviceName, funcName, ...)` to a worker */
    | RemoteCall(serviceName: string, funcName: string)
    /** `serviceObject[funcName](...)` on the provider found at preparation time */
    | LocalCall(serviceName: string, funcName: string)
    /** `() => { }`: the provider had no such function when the block was prepared */
    | NoOp

  /** A prepared block's `func`: the caller's value (event and button blocks) or the bound function. */
  datatype BlockFunc = Unbound(value: Js) | Bound(target: CallTarget)

  /** A block after `_prepareBlockInfo`: every defaulted field has a value. */
  datatype Block = Block(
    opcode: Js,
    text: Js,
    blockType: BlockType,
    terminal: bool,
    blockAllThreads: bool,
    arguments: map<string, ArgumentInfo>,
    func: BlockFunc,
    isDynamic: bool,
    others: map<string, Js>)

  /** One element of a prepared `blocks` array. */
  datatype Entry = Separator | Prepared(block: Block)

  /** Event and button blocks keep their `func` and need no opcode. */
  predicate Unbindable(t: BlockType) {
    t == Event || t == Button
  }

  predicate IsXmlSpecial(c: char) {
    c == '<' || c == '"' || c == '&'
  }

  /** `text.replace(/[<"&]/, '_')`: the regular expression has no `g` flag. */
  function SanitizeId(text: string): (r: string)
    ensures |r| == |text|
    decreases |text|
  {
    if text == [] then []
    else if IsXmlSpecial(text[0]) then "_" + text[1..]
    else [text[0]] + SanitizeId(text[1..])
  }

  /** A string without `<`, `"` or `&` is left unchanged. */
  lemma {:induction false} SanitizeIdNoSpecial(text: string)
    requires forall i :: 0 <= i < |text| ==> !IsXmlSpecial(text[i])
    ensures SanitizeId(text) == text
    decreases |text|
  {
    if text != [] {
      SanitizeIdNoSpecial(text[1..]);
    }
  }

  /** Only the first special character, at `first`, becomes `_`; everything else is kept. */
  lemma {:induction false} SanitizeIdReplacesFirst(text: string, first: nat)
    requires first < |text| && IsXmlSpecial(text[first])
    requires forall i :: 0 <= i < first ==> !IsXmlSpecial(text[i])
    ensures SanitizeId(text)[first] == '_'
    ensures forall i :: 0 <= i < |text| && i != first ==> SanitizeId(text)[i] == text[i]
    decreases first
  {
    if first > 0 {
      SanitizeIdReplacesFirst(text[1..], first - 1);
    }
  }

  /** Sanitising twice replaces a second special character: sanitising is not idempotent. */
  lemma SanitizeIdNotIdempotent()
    ensures SanitizeId("<<") == "_<"
    ensures SanitizeId(SanitizeId("<<")) == "__"
  {
    assert SanitizeId("<") == "_";
    assert "<<"[1..] == "<";
    assert "_<"[1..] == "<";
  }

  /** The function name a block is bound to: its sanitised `func`, else its (sanitised) opcode. */
  function FuncName(raw: RawBlock): string {
    if Truthy(raw.func) then SanitizeId(ToString(raw.func)) else SanitizeId(ToString(raw.opcode))
  }

  /** The target a bound block function forwards to, as the provider stood at preparation time. */
  function BindTarget(provider: Binding, serviceName: string, funcName: string): (t: CallTarget)
    ensures provider.Remote? ==> t == RemoteCall(serviceName, funcName)
    ensures provider.Local? && funcName in provider.methods ==> t == LocalCall(serviceName, funcName)
    ensures provider.Local? && funcName !in provider.methods ==> t == NoOp
  {
    match provider
    case Remote => RemoteCall(serviceName, funcName)
    case Local(methods) => if funcName in methods then LocalCall(serviceName, funcName) else NoOp
  }

  /** The block after the defaults, the opcode sanitisation and the text default, with its
   *  `func` not yet bound. */
  function Defaulted(raw: RawBlock): Block {
    var opcode := if Truthy(raw.opcode) then Str(SanitizeId(ToString(raw.opcode))) else raw.opcode;
    Block(opcode, if Truthy(raw.text) then raw.text else opcode, raw.blockType.GetOr(Command),
          raw.terminal.GetOr(false), raw.blockAllThreads.GetOr(false), raw.arguments.GetOr(map[]),
          Unbound(raw.func), raw.isDynamic, raw.others)
  }

  /**
   * `_prepareBlockInfo(serviceName, blockInfo)`. The caller's fields win over
   * the defaults; a block that is neither an event nor a button needs an
   * opcode and gets a function bound to the provider of `serviceName`.
   */
  function PrepareBlockInfo(serviceName: string, services: Services, raw: RawBlock): (r: Result<Block, Error>)
    ensures r.Failure? <==>
      && !Unbindable(raw.blockType.GetOr(Command))
      && (!Truthy(raw.opcode) || serviceName !in services)
    ensures r.Failure? && !Truthy(raw.opcode) ==> r.error == MissingOpcode
  {
    var block := Defaulted(raw);
    if Unbindable(block.blockType) then Success(block)
    else if !Truthy(block.opcode) then Failure(MissingOpcode)
    else
      match Lookup(services, serviceName)
      case None => Failure(ServiceNotFound(serviceName))
      case Some(provider) => Success(block.(func := Bound(BindTarget(provider, serviceName, FuncName(raw)))))
  }

  /** The fields of a prepared block: the caller's values over the defaults, the sanitised
   *  opcode, the text defaulting to the opcode, and the function left alone on events and
   *  buttons and bound to the provider otherwise. */
  lemma PreparedBlockFields(serviceName: string, services: Services, raw: RawBlock)
    ensures PrepareBlockInfo(serviceName, services, raw).Success? ==>
      var b := PrepareBlockInfo(serviceName, services, raw).value;
      && b.blockType == (if raw.blockType.Some? then raw.blockType.value else Command)
      && b.terminal == (if raw.terminal.Some? then raw.terminal.value else false)
      && b.blockAllThreads == (if raw.blockAllThreads.Some? then raw.blockAllThreads.value else false)
      && b.arguments == (if raw.arguments.Some? then raw.arguments.value else map[])
      && b.isDynamic == raw.isDynamic && b.others == raw.others
      && (Truthy(raw.opcode) ==> b.opcode == Str(SanitizeId(ToString(raw.opcode))))
      && (!Truthy(raw.opcode) ==> b.opcode == raw.opcode)
      && (Truthy(raw.text) ==> b.text == raw.text)
      && (!Truthy(raw.text) ==> b.text == b.opcode)
      && (Unbindable(b.blockType) ==> b.func == Unbound(raw.func))
      && (!Unbindable(b.blockType) ==>
            b.func == Bound(BindTarget(services[serviceName], serviceName, FuncName(raw))))
  {
    var block := Defaulted(raw);
    if Unbindable(block.blockType) {
      assert PrepareBlockInfo(serviceName, services, raw) == Success(block);
    } else if Truthy(block.opcode) && serviceName in services {
      assert PrepareBlockInfo(serviceName, services, raw)
          == Success(block.(func := Bound(BindTarget(services[serviceName], serviceName, FuncName(raw)))));
    }
  }

  /** A prepared block offered to preparation again; `func` is whatever the bound function
   *  converts to, which the model leaves open. */
  function AsRaw(b: Block, func: Js): RawBlock {
    RawBlock(b.opcode, b.text, Some(b.blockType), Some(b.terminal), Some(b.blockAllThreads),
             Some(b.arguments), func, b.isDynamic, b.others)
  }

  /** Preparing a prepared block again succeeds and changes nothing but the function and the
   *  opcode, and keeps the opcode too when it has no `<`, `"` or `&` left. */
  lemma RePrepareBlock(serviceName: string, services: Services, raw: RawBlock, func: Js)
    requires PrepareBlockInfo(serviceName, services, raw).Success?
    ensures
      var b := PrepareBlockInfo(serviceName, services, raw).value;
      var again := PrepareBlockInfo(serviceName, services, AsRaw(b, func));
      && again.Success?
      && again.value.(opcode := b.opcode, func := b.func) == b
      && ((b.opcode.Str? && forall i :: 0 <= i < |b.opcode.s| ==> !IsXmlSpecial(b.opcode.s[i]))
            ==> again.value.opcode == b.opcode)
  {
    var b := PrepareBlockInfo(serviceName, services, raw).value;
    PreparedBlockFields(serviceName, services, raw);
    if Truthy(raw.opcode) {
      TruthyToStringNonEmpty(raw.opcode);
    }
    DefaultedAsRaw(b, func);
    var again := PrepareBlockInfo(serviceName, services, AsRaw(b, func));
    PreparedBlockFields(serviceName, services, AsRaw(b, func));
    if b.opcode.Str? && forall i :: 0 <= i < |b.opcode.s| ==> !IsXmlSpecial(b.opcode.s[i]) {
      SanitizeIdNoSpecial(b.opcode.s);
    }
  }

  /** Defaulting a block whose text fell back to its opcode changes at most its opcode and
   *  function, and keeps a non-empty string opcode truthy. */
  lemma DefaultedAsRaw(b: Block, func: Js)
    requires !Truthy(b.text) ==> b.text == b.opcode
    ensures Defaulted(AsRaw(b, func)).(opcode := b.opcode, func := b.func) == b
    ensures b.opcode.Str? && b.opcode.s != "" ==> Truthy(Defaulted(AsRaw(b, func)).opcode)
  {
    var d := Defaulted(AsRaw(b, func));
    assert d.text == b.text;
    if b.opcode.Str? && b.opcode.s != "" {
      assert |SanitizeId(b.opcode.s)| == |b.opcode.s|;
    }
  }

  /** The `args` a block function receives: argument values and an optional mutation. */
  datatype Args = Args(values: map<string, Js>, mutation: Option<Mutation>)
  datatype Mutation = Mutation(blockInfo: Option<RawBlock>)

  /** The block info a bound function passes on. */
  datatype RealInfo = StaticInfo(block: Block) | FromMutation(info: Option<RawBlock>)

  /** What calling a bound block function does. */
  datatype Effect =
    | DispatchCall(serviceName: string, funcName: string, args: Option<Args>, realBlockInfo: RealInfo)
    | DirectCall(serviceName: string, funcName: string, args: Option<Args>, realBlockInfo: RealInfo)
    | NoEffect

  /** `args && args.mutation && args.mutation.blockInfo` */
  function BlockInfoFromArgs(args: Option<Args>): Option<RawBlock> {
    if args.Some? && args.value.mutation.Some? then args.value.mutation.value.blockInfo else None
  }

  /** Calling `blockInfo.func(args, util)` on a prepared block (`util` is passed through and
   *  not modelled). It depends only on what was fixed at preparation time. */
  function Invoke(b: Block, args: Option<Args>): Effect
    requires b.func.Bound?
  {
    var realBlockInfo := if b.isDynamic then FromMutation(BlockInfoFromArgs(args)) else StaticInfo(b);
    match b.func.target
    case RemoteCall(serviceName, funcName) => DispatchCall(serviceName, funcName, args, realBlockInfo)
    case LocalCall(serviceName, funcName) => DirectCall(serviceName, funcName, args, realBlockInfo)
    case NoOp => NoEffect
  }

  /** The bound function of a prepared block: dynamic blocks take their real info from the
   *  mutation, static ones pass the prepared block; remote services are reached by dispatch,
   *  local ones directly, and a function the provider lacked becomes a no-op. */
  lemma BoundFunction(serviceName: string, services: Services, raw: RawBlock, args: Option<Args>)
    requires PrepareBlockInfo(serviceName, services, raw).Success?
    requires !Unbindable(raw.blockType.GetOr(Command))
    ensures
      var b := PrepareBlockInfo(serviceName, services, raw).value;
      var realInfo := if raw.isDynamic then FromMutation(BlockInfoFromArgs(args)) else StaticInfo(b);
      var funcName := FuncName(raw);
      && b.func.Bound?
      && (services[serviceName].Remote? ==> Invoke(b, args) == DispatchCall(serviceName, funcName, args, realInfo))
      && (services[serviceName].Local? && funcName in services[serviceName].methods ==>
            Invoke(b, args) == DirectCall(serviceName, funcName, args, realInfo))
      && (services[serviceName].Local? && funcName !in services[serviceName].methods ==>
            Invoke(b, args) == NoEffect)
  {
  }

  /** One step of the `reduce` over `blocks`: a separator is kept, a block that throws is dropped. */
  function PrepareEntry(serviceName: string, services: Services, e: RawEntry): (r: seq<Entry>)
    ensures |r| <= 1
    ensures e == TextEntry("---") ==> r == [Separator]
    ensures e.TextEntry? && e.s != "---" ==> r == []
    ensures e.BlockEntry? ==>
      r == match PrepareBlockInfo(serviceName, services, e.block)
           case Success(b) => [Prepared(b)]
           case Failure(_) => []
  {
    match e
    case TextEntry(s) =>
      if s == "---" then [Separator]
      else
        // any other string is prepared as an object with no block properties, and throws
        (match PrepareBlockInfo(serviceName, services, NoProperties)
         case Success(b) => [Prepared(b)]
         case Failure(_) => [])
    case BlockEntry(raw) =>
      match PrepareBlockInfo(serviceName, services, raw)
      case Success(b) => [Prepared(b)]
      case Failure(_) => []
  }

  /** The `reduce` over `blocks`. */
  function PrepareBlocks(serviceName: string, services: Services, entries: seq<RawEntry>): (r: seq<Entry>)
    ensures |r| <= |entries|
    decreases |entries|
  {
    if entries == [] then []
    else PrepareEntry(serviceName, services, entries[0]) + PrepareBlocks(serviceName, services, entries[1..])
  }

  /** Preparation works entry by entry: the prepared list of a concatenation is the
   *  concatenation of the prepared lists, so surviving entries keep their order. */
  lemma {:induction false} PrepareBlocksAppend(serviceName: string, services: Services, a: seq<RawEntry>, b: seq<RawEntry>)
    ensures PrepareBlocks(serviceName, services, a + b)
         == PrepareBlocks(serviceName, services, a) + PrepareBlocks(serviceName, services, b)
    decreases |a|
  {
    if a == [] {
      assert a + b == b;
    } else {
      assert (a + b)[0] == a[0];
      assert (a + b)[1..] == a[1..] + b;
      PrepareBlocksAppend(serviceName, services, a[1..], b);
    }
  }

  /** The number of entries of `es` that preparation drops. */
  function Dropped(serviceName: string, services: Services, es: seq<RawEntry>): nat
    decreases |es|
  {
    if es == [] then 0
    else (if PrepareEntry(serviceName, services, es[0]) == [] then 1 else 0) + Dropped(serviceName, services, es[1..])
  }

  function CountSeparators(es: seq<Entry>): nat
    decreases |es|
  {
    if es == [] then 0 else (if es[0] == Separator then 1 else 0) + CountSeparators(es[1..])
  }

  function CountDashes(es: seq<RawEntry>): nat
    decreases |es|
  {
    if es == [] then 0 else (if es[0] == TextEntry("---") then 1 else 0) + CountDashes(es[1..])
  }

  /** Exactly the failing entries are dropped, and every `'---'` becomes one separator. */
  lemma {:induction false} PrepareBlocksCounts(serviceName: string, services: Services, es: seq<RawEntry>)
    ensures |PrepareBlocks(serviceName, services, es)| == |es| - Dropped(serviceName, services, es)
    ensures CountSeparators(PrepareBlocks(serviceName, services, es)) == CountDashes(es)
    decreases |es|
  {
    if es != [] {
      PrepareBlocksCounts(serviceName, services, es[1..]);
      var head := PrepareEntry(serviceName, services, es[0]);
      var tail := PrepareBlocks(serviceName, services, es[1..]);
      assert PrepareBlocks(serviceName, services, es) == head + tail;
      if head == [] {
        assert head + tail == tail;
      } else {
        assert (head + tail)[0] == head[0];
        assert (head + tail)[1..] == tail;
        assert head[0] == Separator <==> es[0] == TextEntry("---");
      }
    }
  }

  /** `/^[a-z0-9]+$/i`: non-empty, ASCII letters and digits only. */
  predicate IsValidId(s: string) {
    |s| > 0 && forall i :: 0 <= i < |s| ==> ('a' <= s[i] <= 'z' || 'A' <= s[i] <= 'Z' || '0' <= s[i] <= '9')
  }

  /** An extension's (or a device category's) metadata as `getInfo()` returns it. */
  datatype RawInfo = RawInfo(
    id: Js,
    name: Js,
    blocks: Option<seq<RawEntry>>,
    targetTypes: Option<seq<string>>,
    menus: Option<map<string, Menu>>,
    others: map<string, Js>)

  /** Metadata after preparation. */
  datatype Info = Info(
    id: Js,
    name: Js,
    blocks: seq<Entry>,
    targetTypes: seq<string>,
    menus: map<string, Menu>,
    others: map<string, Js>)

  /**
   * `_prepareExtensionInfo(serviceName, extensionInfo)`; each category of a
   * device goes through the same steps. The id is tested in its string form,
   * so a missing or `null` id passes the test as "undefined" or "null".
   */
  function PrepareExtensionInfo(serviceName: string, services: Services, info: RawInfo): (r: Result<Info, Error>)
    ensures r.Failure? <==> !IsValidId(ToString(info.id))
    ensures r.Failure? ==> r.error == InvalidExtensionId
    ensures r.Success? ==>
      var p := r.value;
      var blocks := if info.blocks.Some? then info.blocks.value else [];
      && p.id == info.id
      && p.name == (if Truthy(info.name) then info.name else info.id)
      && p.targetTypes == (if info.targetTypes.Some? then info.targetTypes.value else [])
      && p.blocks == PrepareBlocks(serviceName, services, blocks)
      && |p.blocks| <= |blocks|
      && p.menus == PreparedMenus(Lookup(services, serviceName), info.menus.GetOr(map[]))
      && p.menus.Keys == info.menus.GetOr(map[]).Keys
      && p.others == info.others
  {
    if !IsValidId(ToString(info.id)) then Failure(InvalidExtensionId)
    else
      Success(Info(
        info.id,
        if Truthy(info.name) then info.name else info.id,
        PrepareBlocks(serviceName, services, info.blocks.GetOr([])),
        info.targetTypes.GetOr([]),
        PreparedMenus(Lookup(services, serviceName), info.menus.GetOr(map[])),
        info.others))
  }

  /** Metadata with no id at all is accepted: the pattern is tested against "undefined". */
  lemma MissingIdAccepted(serviceName: string, services: Services, info: RawInfo)
    requires info.id == Undefined
    ensures PrepareExtensionInfo(serviceName, services, info).Success?
    ensures PrepareExtensionInfo(serviceName, services, info).value.name == (if Truthy(info.name) then info.name else Undefined)
  {
    assert ToString(Undefined) == "undefined";
  }

  /**
   * `_prepareDeviceInfo(serviceName, deviceInfos)`: each category is prepared
   * in order; the first category with a bad id throws and aborts the whole list.
   */
  function PrepareDeviceInfo(serviceName: string, services: Services, infos: seq<RawInfo>)
    : (r: Result<seq<Info>, Error>)
    ensures r.Failure? <==> exists i :: 0 <= i < |infos| && !IsValidId(ToString(infos[i].id))
    ensures r.Failure? ==> r.error == InvalidExtensionId
    ensures r.Success? ==> |r.value| == |infos|
    ensures r.Success? ==> forall i :: 0 <= i < |infos| ==>
      PrepareExtensionInfo(serviceName, services, infos[i]) == Success(r.value[i])
    decreases |infos|
  {
    if infos == [] then Success([])
    else
      match PrepareExtensionInfo(serviceName, services, infos[0])
      case Failure(e) => Failure(e)
      case Success(first) =>
        (match PrepareDeviceInfo(serviceName, services, infos[1..])
         case Failure(e) => Failure(e)
         case Success(rest) => Success([first] + rest))
  }
}
