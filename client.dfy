/**
 * The client handle (`traccar_client_s`) and the base URL
 * `host[:port][/basePath]/` that the query-string and form targets start from.
 */
module Client {
  import opened Wrappers
  import opened Bytes
  import opened Buffer
  import opened Positions

  /** The part of the client the encoders read, as one value. */
  datatype Settings = Settings(host: Option<Text>, port: U16, deviceId: Option<Text>, basePath: Option<Text>)

  /** `traccar_client_s`; a null `char*` is `None`. */
  class Client {
    var host: Option<Text>
    var port: U16
    var deviceId: Option<Text>
    var basePath: Option<Text>

    function Snapshot(): Settings
      reads this
    {
      Settings(host, port, deviceId, basePath)
    }

    /** `traccar_create`: the base path starts as `"/"`. */
    constructor (hostUrl: Option<Text>, port: U16, deviceId: Option<Text>)
      ensures Snapshot() == Settings(hostUrl, port, deviceId, Some("/"))
    {
      this.host := hostUrl;
      this.port := port;
      this.deviceId := deviceId;
      this.basePath := Some("/");
    }

    /** `traccar_set_base_path` / `setBasePath`: a null or empty path is stored as `"/"`. */
    method SetBasePath(path: Option<Text>)
      modifies this`basePath
      ensures basePath == Some(if Provided(path) then path.value else "/")
      ensures Provided(basePath)
      ensures host == old(host) && port == old(port) && deviceId == old(deviceId)
    {
      basePath := if path.Some? && path.value != [] then path else Some("/");
    }
  }

  /** Every string the client holds is a C string: no NUL inside. */
  predicate CStrings(s: Settings)
  {
    && (s.host.Some? ==> IsCString(s.host.value))
    && (s.deviceId.Some? ==> IsCString(s.deviceId.value))
    && (s.basePath.Some? ==> IsCString(s.basePath.value))
  }

  /** Host, then `:port` when the port is not 0. */
  function HostPort(host: Option<Text>, port: U16): Text
  {
    (if Provided(host) then host.value else []) + (if port != 0 then ":" + Decimal(port) else [])
  }

  /** Host and port, then the base path, preceded by `/` when it does not start with one. */
  function Stem(host: Option<Text>, port: U16, basePath: Option<Text>): Text
  {
    HostPort(host, port)
    + (if Provided(basePath) then (if basePath.value[0] != '/' then "/" else []) + basePath.value else [])
  }

  /** The final rule: add `/` when the text is empty or does not end with one. */
  function WithTrailingSlash(t: Text): (r: Text)
    ensures |r| > 0 && r[|r| - 1] == '/'
    ensures t <= r && |r| <= |t| + 1
    ensures r == t <==> |t| > 0 && t[|t| - 1] == '/'
  {
    if |t| == 0 || t[|t| - 1] != '/' then t + "/" else t
  }

  /** `tr_build_base_url`, `tr_make_base_url_arduino` and `makeBaseUrl`, without a buffer bound. */
  function BaseUrl(s: Settings): Text
  {
    WithTrailingSlash(Stem(s.host, s.port, s.basePath))
  }

  /**
   * The base URL starts with host and port, always ends with `/`, and a
   * base path that is given is placed right after a `/`.
   */
  lemma BaseUrlShape(s: Settings)
    ensures var r := BaseUrl(s); var hp := HostPort(s.host, s.port);
      && |r| > 0 && r[|r| - 1] == '/'
      && hp <= r
      && (Provided(s.basePath) ==> |hp| < |r| && r[|hp|] == '/')
      && (Provided(s.basePath) && s.basePath.value[0] != '/' ==> r[|hp| + 1..|hp| + 1 + |s.basePath.value|] == s.basePath.value)
      && (Provided(s.basePath) && s.basePath.value[0] == '/' ==> r[|hp|..|hp| + |s.basePath.value|] == s.basePath.value)
  {
    var hp := HostPort(s.host, s.port);
    var stem := Stem(s.host, s.port, s.basePath);
    var r := BaseUrl(s);
    assert stem <= r;
    if Provided(s.basePath) {
      var p := s.basePath.value;
      var sep: Text := if p[0] != '/' then "/" else [];
      assert stem == hp + (sep + p);
      PathPlaced(hp, sep, p, r);
    } else {
      assert stem == hp;
    }
  }

  /** A path after its separator, inside a text that starts with them. */
  lemma PathPlaced(hp: Text, sep: Text, p: Text, r: Text)
    requires |p| > 0 && (sep == "/" || (sep == [] && p[0] == '/'))
    requires hp + (sep + p) <= r
    ensures hp <= r && |hp| < |r| && r[|hp|] == '/'
    ensures r[|hp| + |sep|..|hp| + |sep| + |p|] == p
  {
    var t := hp + (sep + p);
    assert t[..|hp|] == hp;
    assert t[|hp| + |sep|..] == p;
    assert r[..|t|] == t;
  }

  /** A path that already ends with `/` gets no second one. */
  lemma NoDoubleSlash(s: Settings)
    requires Provided(s.basePath) && s.basePath.value[|s.basePath.value| - 1] == '/'
    ensures BaseUrl(s) == Stem(s.host, s.port, s.basePath)
  {
  }

  /** The default path `/` after a host and port that do not end with `/` yields exactly one slash. */
  lemma DefaultPathOneSlash(s: Settings)
    requires s.basePath == Some("/")
    ensures BaseUrl(s) == HostPort(s.host, s.port) + "/"
  {
  }

  /** `"http://h"`, port 5055, base path `"/x"`: `"http://h:5055/x/"`. */
  lemma BaseUrlExample()
    ensures BaseUrl(Settings(Some("http://h"), 5055, None, Some("/x"))) == "http://h:5055/x/"
  {
    assert Decimal(5055) == "5055" by {
      assert Decimal(5) == "5";
      assert Decimal(50) == "50";
      assert Decimal(505) == "505";
    }
  }

  /** Only a missing trailing slash is repaired: a host ending with `/` and the path `/` give two. */
  lemma DuplicateSlashKept()
    ensures BaseUrl(Settings(Some("http://h/"), 0, None, Some("/"))) == "http://h//"
  {
  }

  /** Built from C strings and digits, the base URL is a C string itself. */
  lemma BaseUrlCString(s: Settings)
    requires CStrings(s)
    ensures IsCString(BaseUrl(s))
  {
    var stem := Stem(s.host, s.port, s.basePath);
    StemCString(s.host, s.port, s.basePath);
    if |stem| == 0 || stem[|stem| - 1] != '/' {
      CStringJoin(stem, "/");
    }
  }

  lemma StemCString(host: Option<Text>, port: U16, basePath: Option<Text>)
    requires host.Some? ==> IsCString(host.value)
    requires basePath.Some? ==> IsCString(basePath.value)
    ensures IsCString(Stem(host, port, basePath))
  {
    var h: Text := if Provided(host) then host.value else [];
    var p: Text := if port != 0 then ":" + Decimal(port) else [];
    var path: Text := if Provided(basePath) then (if basePath.value[0] != '/' then "/" else []) + basePath.value else [];
    if port != 0 {
      PortCString(port);
    }
    if Provided(basePath) {
      CStringJoin(if basePath.value[0] != '/' then "/" else [], basePath.value);
    }
    CStringJoin(h, p);
    CStringJoin(h + p, path);
  }

  lemma PortCString(port: U16)
    ensures IsCString(":" + Decimal(port))
  {
    var d := Decimal(port as nat);
    DecimalRoundTrip(port as nat);
    assert forall i :: 0 <= i < |d| ==> IsDigit(d[i]);
    CStringJoin(":", d);
  }

  /** The last step of `tr_build_base_url`: the slash test looks at the last byte in the buffer. */
  method AppendTrailingSlash(out: array<Byte>, idx: nat, ghost stem: Text) returns (next: nat)
    requires Holds(out, idx, stem)
    modifies out
    ensures Holds(out, next, WithTrailingSlash(stem))
  {
    next := idx;
    if idx == 0 || out[idx - 1] != '/' {
      next := Emit(out, idx, stem, "/");
      if idx < |stem| {
        FullBufferHolds(out, next, stem + "/", []);
        assert Holds(out, next, stem);
      }
    }
    ghost var url := WithTrailingSlash(stem);
    if idx < |stem| {
      // full buffer: whether a slash follows is cut off anyway
      assert url == stem + url[|stem|..];
      FullBufferHolds(out, next, stem, url[|stem|..]);
    }
  }

  /** The first two steps of `tr_build_base_url`: the host, then `:port` (`snprintf(":%u")`) when the port is not 0. */
  method AppendHostPort(out: array<Byte>, host: Option<Text>, port: U16) returns (idx: nat)
    requires 0 < out.Length
    modifies out
    ensures Holds(out, idx, HostPort(host, port))
  {
    idx := 0;
    out[0] := NUL;
    ghost var text: Text := [];
    if host.Some? && host.value != [] {
      idx := Emit(out, idx, text, host.value);
      text := text + host.value;
    }
    if port != 0 {
      idx := Emit(out, idx, text, ":" + Decimal(port));
      text := text + (":" + Decimal(port));
    }
  }

  /**
   * `tr_build_base_url`: bounded appends into `out`. The buffer ends up
   * holding as much of `BaseUrl` as fits, NUL-terminated.
   */
  method BuildBaseUrl(c: Client, out: array<Byte>)
    requires 0 < out.Length
    modifies out
    ensures Holds(out, Min(|BaseUrl(c.Snapshot())|, out.Length - 1), BaseUrl(c.Snapshot()))
  {
    var idx := AppendHostPort(out, c.host, c.port);
    ghost var text := HostPort(c.host, c.port);
    if c.basePath.Some? && c.basePath.value != [] {
      if c.basePath.value[0] != '/' {
        idx := Emit(out, idx, text, "/");
        text := text + "/";
      }
      idx := Emit(out, idx, text, c.basePath.value);
      text := text + c.basePath.value;
    }
    assert text == Stem(c.host, c.port, c.basePath);
    idx := AppendTrailingSlash(out, idx, text);
  }
}
