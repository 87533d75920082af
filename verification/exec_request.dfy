/** The request side of the `exec_cmd` tool: from a target device and a
    command it builds the RESTCONF call that runs the command through the
    controller's `live-status/exec/any` action. */
module ExecRequest {
  import opened Wrappers
  import opened JsonValues

  /** The media type sent both as `Content-Type` and as `Accept`. */
  const MediaType := "application/yang-data+json"

  /** Path pieces around the device name in the exec action's path. */
  const ExecPathPrefix := "/operations/tailf-ncs:devices/device="
  const ExecPathSuffix := "/live-status/exec/any"

  /** Where the controller listens. Credentials go with the HTTP call,
      which is outside this model. */
  datatype Controller = Controller(host: string, port: string)

  /** Everything the HTTP POST is given apart from the credentials. */
  datatype Request = Request(url: string, headers: map<string, string>, body: Json)

  /** Root of the controller's RESTCONF API. */
  function RestconfRoot(c: Controller): string
  {
    "http://" + c.host + ":" + c.port + "/restconf"
  }

  /** The two headers every call carries. */
  function ExecHeaders(): (h: map<string, string>)
    ensures h.Keys == {"Content-Type", "Accept"}
    ensures forall name :: name in h ==> h[name] == MediaType
  {
    map["Content-Type" := MediaType, "Accept" := MediaType]
  }

  /** The action input `{"input": {"args": command}}`. */
  function ExecBody(command: Json): Json
  {
    JObj(map["input" := JObj(map["args" := command])])
  }

  /** Builds the exec call for `device` and `command`: the device name is
      embedded in the path exactly as given and can be read back from it,
      the headers are the fixed pair, and the body carries the command
      unchanged under `input.args` and nothing else. */
  function BuildExec(c: Controller, device: string, command: Json): (r: Request)
    ensures |r.url| == |RestconfRoot(c)| + |ExecPathPrefix| + |device| + |ExecPathSuffix|
    ensures ParseExecUrl(RestconfRoot(c), r.url) == Some(device)
    ensures r.headers.Keys == {"Content-Type", "Accept"}
    ensures forall name :: name in r.headers ==> r.headers[name] == MediaType
    ensures ExecArgs(r.body) == Some(command)
  {
    var url := RestconfRoot(c) + ExecPathPrefix + device + ExecPathSuffix;
    ExecUrlRoundTrip(RestconfRoot(c), device);
    Request(url, ExecHeaders(), ExecBody(command))
  }

  /** The device name in an exec-action URL under `root`, if `url` has
      that shape. */
  function ParseExecUrl(root: string, url: string): Option<string>
  {
    var head := root + ExecPathPrefix;
    if |head| + |ExecPathSuffix| <= |url|
       && url[..|head|] == head
       && url[|url| - |ExecPathSuffix|..] == ExecPathSuffix
    then Some(url[|head|..|url| - |ExecPathSuffix|])
    else None
  }

  /** The command inside an exec-action body, if the body has exactly the
      shape `{"input": {"args": X}}`. */
  function ExecArgs(body: Json): Option<Json>
  {
    if body.JObj? && body.fields.Keys == {"input"}
       && body.fields["input"].JObj? && body.fields["input"].fields.Keys == {"args"}
    then Some(body.fields["input"].fields["args"])
    else None
  }

  /** The device name reads back from the URL built around it, whatever
      characters it contains. */
  lemma ExecUrlRoundTrip(root: string, device: string)
    ensures ParseExecUrl(root, root + ExecPathPrefix + device + ExecPathSuffix) == Some(device)
  {
  }

  /** Every URL the parser accepts is exactly the one built around the
      device it returns. */
  lemma ParsedUrlIsBuilt(root: string, url: string, device: string)
    requires ParseExecUrl(root, url) == Some(device)
    ensures url == root + ExecPathPrefix + device + ExecPathSuffix
  {
  }

  /** Different devices never build the same URL string on the same
      controller. This is about the string itself, not about the resource
      it reaches once an HTTP client has re-quoted it. */
  lemma ExecUrlInjective(c: Controller, d1: string, d2: string, x1: Json, x2: Json)
    requires BuildExec(c, d1, x1).url == BuildExec(c, d2, x2).url
    ensures d1 == d2
  {
  }

  /** The body decoder accepts exactly the bodies the builder produces. */
  lemma ExecArgsInvertsBody(body: Json, command: Json)
    ensures ExecArgs(body) == Some(command) <==> body == ExecBody(command)
  {
    if ExecArgs(body) == Some(command) {
      var input := body.fields["input"];
      assert input.fields == map["args" := command];
      assert body.fields == map["input" := input];
    }
    if body == ExecBody(command) {
      assert body.fields.Keys == {"input"};
      assert body.fields["input"].fields.Keys == {"args"};
    }
  }
}
