/** Small pure helpers of the play page controller and its services
    (handlers/www/assets/app-simplified.js): the proxy URL for an exposed
    port, the newline rule of `runCommand`, the cheat-sheet lookup and the
    session id taken from the page path. */
module Helpers {
  import opened JsValues
  import opened Decimal
  import opened Instances

  /** `getProxyUrl(instance, port)`: empty without an instance; otherwise
      `<protocol>://<proxy_host>-<port>.<host>`, with https exactly for ports
      443 and 8443. */
  function ProxyUrl(instance: Option<InstanceRec>, port: nat, host: string): (url: string)
    ensures instance.None? <==> url == ""
    ensures instance.Some? ==> (IsPrefix("https://", url) <==> port == 443 || port == 8443)
    ensures instance.Some? && port != 443 && port != 8443 ==> IsPrefix("http://", url)
    ensures instance.Some? ==> IsSuffix(ToJsString(instance.value.proxyHost) + "-" + NatToString(port) + "." + host, url)
    ensures instance.Some? ==>
      |url| == (if port == 443 || port == 8443 then |"https://"| else |"http://"|)
               + |ToJsString(instance.value.proxyHost) + "-" + NatToString(port) + "." + host|
  {
    if instance.None? then "" else
      var protocol := if port == 443 || port == 8443 then "https" else "http";
      var head := protocol + "://";
      var proxyHost := ToJsString(instance.value.proxyHost);
      var body := proxyHost + "-" + NatToString(port) + "." + host;
      var url := head + body;
      assert url[..|head|] == head && url[|url| - |body|..] == body;
      assert url[4] == head[4];
      url
  }

  /** The command `runCommand` sends: add a newline only when it is missing. */
  function WithTrailingNewline(command: string): (cmd: string)
    ensures 1 <= |cmd| && |command| <= |cmd| <= |command| + 1
    ensures cmd[|cmd| - 1] == '\n'
    ensures cmd[..|command|] == command
    ensures cmd == command <==> (|command| > 0 && command[|command| - 1] == '\n')
  {
    if |command| > 0 && command[|command| - 1] == '\n' then command else command + "\n"
  }

  /** Running `runCommand` twice on its own output adds nothing more. */
  lemma TrailingNewlineIdempotent(command: string)
    ensures WithTrailingNewline(WithTrailingNewline(command)) == WithTrailingNewline(command)
  {
  }

  /** One cheat-sheet category: id and commands (titles and texts are not modelled). */
  datatype CheatCategory<C> = CheatCategory(id: string, commands: seq<C>)

  /** `Array.prototype.find` on the category id: the first match, if any. */
  function FindCategory<C>(sheet: seq<CheatCategory<C>>, id: string): (r: Option<nat>)
    ensures r.Some? ==> r.value < |sheet| && sheet[r.value].id == id
                        && forall j :: 0 <= j < r.value ==> sheet[j].id != id
    ensures r.None? ==> forall j :: 0 <= j < |sheet| ==> sheet[j].id != id
    decreases |sheet|
  {
    if sheet == [] then None
    else if sheet[0].id == id then Some(0)
    else match FindCategory(sheet[1..], id)
      case None => None
      case Some(k) => Some(k + 1)
  }

  /** `getCheatCommands()`: the commands of the first category whose id is the
      selected one, and none when no category has it. */
  function CheatCommands<C>(sheet: seq<CheatCategory<C>>, selected: string): (cmds: seq<C>)
    ensures (forall j :: 0 <= j < |sheet| ==> sheet[j].id != selected) ==> cmds == []
    ensures forall i :: (0 <= i < |sheet| && sheet[i].id == selected &&
                         (forall j :: 0 <= j < i ==> sheet[j].id != selected)) ==> cmds == sheet[i].commands
  {
    match FindCategory(sheet, selected)
    case None => []
    case Some(i) => sheet[i].commands
  }

  /** `window.location.pathname.split('/').pop()`: the text after the last
      slash, or the whole path when it has none. */
  function LastSegment(path: string): (seg: string)
    ensures '/' !in seg
    ensures IsSuffix(seg, path)
    ensures |seg| < |path| ==> path[|path| - |seg| - 1] == '/'
    decreases |path|
  {
    if path == [] then ""
    else if path[|path| - 1] == '/' then ""
    else
      var init := path[..|path| - 1];
      var seg := LastSegment(init);
      assert path[|path| - |seg| - 1..] == init[|init| - |seg|..] + [path[|path| - 1]];
      seg + [path[|path| - 1]]
  }

  lemma SessionIdExample()
    ensures LastSegment("/p/abc") == "abc" && LastSegment("/p/abc/") == ""
  {
    assert LastSegment("/p/") == "";
    assert "/p/a"[..3] == "/p/";
    assert LastSegment("/p/a") == "a";
    assert "/p/ab"[..4] == "/p/a";
    assert LastSegment("/p/ab") == "ab";
    assert "/p/abc"[..5] == "/p/ab";
  }
}
