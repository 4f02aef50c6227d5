/**
 * The per-client authentication fragment and the stream link
 * (subsonic_client.py, the constructor and _get_subsonic_stream_link_func).
 */
module Session {
  import opened Text

  /** random.randrange(16**32) draws below this bound. */
  function SaltDraws(): nat
  {
    Pow(16, 32)
  }

  /** `('%32x' % draw).strip()`: lower-case hex padded to 32 places with spaces, then stripped. */
  function Salt(draw: nat): string
  {
    Strip(PadLeft(Numeral(draw, 16), 32))
  }

  /**
   * The padding is spaces, so stripping leaves the bare hex digits: one to 32
   * of them, no leading zero, and they read back as the draw.
   */
  lemma SaltIsHex(draw: nat)
    requires draw < SaltDraws()
    ensures Salt(draw) == Numeral(draw, 16)
    ensures 1 <= |Salt(draw)| <= 32 && AllDigits(Salt(draw), 16)
    ensures ValueOf(Salt(draw), 16) == draw
    ensures draw > 0 ==> Salt(draw)[0] != '0'
  {
    var h := Numeral(draw, 16);
    NumeralShape(draw, 16);
    NumeralLength(draw, 16, 32);
    assert Salt(draw) == h by {
      assert IsDigit(h[0], 16) && IsDigit(h[|h| - 1], 16);
      if |h| < 32 {
        StripPadded(h, 32 - |h|);
      } else {
        assert Spaces(0) + h == h;
        StripPadded(h, 0);
      }
    }
    NumeralRoundTrip(draw, 16);
  }

  /** The salt is not always 32 digits long: every draw below 16^31 gives a shorter one. */
  lemma SaltShortBelow(draw: nat)
    requires draw < Pow(16, 31)
    ensures |Salt(draw)| < 32
  {
    assert Pow(16, 32) == 16 * Pow(16, 31);
    SaltIsHex(draw);
    NumeralLength(draw, 16, 31);
  }

  /** `hashlib.md5((password + salt).encode('utf-8')).hexdigest()`, with the digest supplied by the caller. */
  function Token(md5Hex: string -> string, password: string, salt: string): string
  {
    md5Hex(password + salt)
  }

  /** `rest_params`: the fixed fragment every request carries. */
  function RestParams(username: string, token: string, salt: string, client: string, version: string): string
  {
    "u=" + username + "&t=" + token + "&s=" + salt + "&c=" + client + "&v=" + version + "&f=json"
  }

  /** The fields of `rest_params`, in order. */
  function RestFields(username: string, token: string, salt: string, client: string, version: string): seq<string>
  {
    ["u=" + username, "t=" + token, "s=" + salt, "c=" + client, "v=" + version, "f=json"]
  }

  /** Split at '&', the fragment is exactly six assignments, in a fixed order, when no value holds an '&'. */
  lemma RestParamsFields(username: string, token: string, salt: string, client: string, version: string)
    requires '&' !in username && '&' !in token && '&' !in salt && '&' !in client && '&' !in version
    ensures Split(RestParams(username, token, salt, client, version), '&')
         == RestFields(username, token, salt, client, version)
  {
    var fields := RestFields(username, token, salt, client, version);
    assert Join(fields, '&') == RestParams(username, token, salt, client, version) by {
      var f1, f2, f3, f4, f5 := fields[..1], fields[..2], fields[..3], fields[..4], fields[..5];
      assert Join(f1, '&') == "u=" + username;
      assert f2[..1] == f1;
      assert Join(f2, '&') == "u=" + username + "&t=" + token;
      assert f3[..2] == f2;
      assert Join(f3, '&') == "u=" + username + "&t=" + token + "&s=" + salt;
      assert f4[..3] == f3;
      assert Join(f4, '&') == "u=" + username + "&t=" + token + "&s=" + salt + "&c=" + client;
      assert f5[..4] == f4;
      assert Join(f5, '&') == "u=" + username + "&t=" + token + "&s=" + salt + "&c=" + client + "&v=" + version;
      assert fields[..5] == f5;
    }
    assert forall k :: 0 <= k < |fields| ==> '&' !in fields[k] by {
      assert forall k :: 0 <= k < |fields| ==> '&' !in fields[k][..2] && fields[k][2..] in {username, token, salt, client, version, "json"};
    }
    SplitJoin(fields, '&');
  }

  /** The closure _get_subsonic_stream_link_func(connection_uri, rest_params) returns. */
  datatype StreamLinker = StreamLinker(connectionUri: string, restParams: string) {
    /** The playable URL of a song: its id is inserted as given, without encoding. */
    function Link(songId: string): string
    {
      connectionUri + "/rest/stream?id=" + songId + "&" + restParams
    }
  }

  /** Different song ids give different links, so a link names one song. */
  lemma LinkInjective(s: StreamLinker, a: string, b: string)
    requires s.Link(a) == s.Link(b)
    ensures a == b
  {
    var head := s.connectionUri + "/rest/stream?id=";
    assert |a| == |b|;
    assert s.Link(a)[|head|..|head| + |a|] == a;
    assert s.Link(b)[|head|..|head| + |b|] == b;
  }
}
