/** Storage keys of public assets and the URLs made of them. */
module Assets {
  import opened ChatTypes

  /** The strings that start with "http" are taken for URLs. */
  predicate IsUrl(s: string) {
    "http" <= s
  }

  function TrimRightSlashes(s: string): string {
    if s != "" && s[|s| - 1] == '/' then TrimRightSlashes(s[..|s| - 1]) else s
  }

  function TrimLeftSlashes(s: string): string {
    if s != "" && s[0] == '/' then TrimLeftSlashes(s[1..]) else s
  }

  function FullAssetURL(base: string, key: string): string {
    if key == "" then ""
    else if IsUrl(key) then key
    else TrimRightSlashes(base) + "/" + TrimLeftSlashes(key)
  }

  /** None stands for the error that refuses a foreign URL. */
  function NormalizeAssetKey(base: string, input: string): Option<string> {
    if input == "" then Some("")
    else if IsUrl(input) then
      var baseUrl := TrimRightSlashes(base) + "/";
      if baseUrl <= input then Some(input[|baseUrl|..]) else None
    else Some(input)
  }

  /** The exact condition under which a key survives becoming a URL and being taken back. The last case is that of a
      base made of slashes only. */
  predicate Survives(base: string, key: string) {
    || key == ""
    || (IsUrl(base) && !IsUrl(key) && key[0] != '/')
    || (TrimRightSlashes(base) == "" && key[0] == '/' && (|key| > 1 ==> key[1] != '/'))
  }

  lemma {:induction false} TrimmedBase(base: string)
    ensures TrimRightSlashes(base) <= base
    ensures TrimRightSlashes(base) != "" ==> TrimRightSlashes(base)[|TrimRightSlashes(base)| - 1] != '/'
    ensures IsUrl(TrimRightSlashes(base)) <==> IsUrl(base)
  {
    if base != "" && base[|base| - 1] == '/' {
      TrimmedBase(base[..|base| - 1]);
      if IsUrl(base) {
        assert base[..4] == "http" && |base| > 4;
        assert base[..|base| - 1][..4] == "http";
      }
    }
  }

  lemma {:induction false} TrimmedKey(key: string)
    ensures |TrimLeftSlashes(key)| <= |key| && TrimLeftSlashes(key) == key[|key| - |TrimLeftSlashes(key)|..]
    ensures TrimLeftSlashes(key) != "" ==> TrimLeftSlashes(key)[0] != '/'
    ensures TrimLeftSlashes(key) == key <==> key == "" || key[0] != '/'
    ensures forall i | 0 <= i < |key| - |TrimLeftSlashes(key)| :: key[i] == '/'
  {
    if key != "" && key[0] == '/' {
      TrimmedKey(key[1..]);
      assert forall i | 0 < i < |key| :: key[i] == key[1..][i - 1];
    }
  }

  lemma UrlTakenBack(base: string, key: string)
    requires IsUrl(base) && key != "" && !IsUrl(key)
    ensures NormalizeAssetKey(base, FullAssetURL(base, key)) == Some(TrimLeftSlashes(key))
  {
    TrimmedBase(base);
    var baseUrl, path := TrimRightSlashes(base) + "/", TrimLeftSlashes(key);
    assert FullAssetURL(base, key) == baseUrl + path;
    assert (baseUrl + path)[..4] == TrimRightSlashes(base)[..4];
    assert (baseUrl + path)[|baseUrl|..] == path;
  }

  /** A key is taken back unchanged from its own URL exactly when it survives. */
  lemma AssetRoundTrip(base: string, key: string)
    ensures NormalizeAssetKey(base, FullAssetURL(base, key)) == Some(key) <==> Survives(base, key)
  {
    if key == "" {
    } else if IsUrl(key) {
      UrlKeyIsLost(base, key);
    } else if IsUrl(base) {
      UrlTakenBack(base, key);
      TrimmedKey(key);
      TrimmedBase(base);
    } else {
      OtherBase(base, key);
    }
  }

  lemma UrlKeyIsLost(base: string, key: string)
    requires IsUrl(key)
    ensures NormalizeAssetKey(base, FullAssetURL(base, key)) != Some(key) && !Survives(base, key)
  {
    assert key[0] == "http"[0];
  }

  lemma StemMakesUrl(stem: string, path: string)
    ensures IsUrl(stem + "/" + path) <==> IsUrl(stem)
  {
    var url := stem + "/" + path;
    assert url[|stem|] == '/';
    assert |stem| >= 4 ==> url[..4] == stem[..4];
  }

  lemma OneSlashRestored(key: string)
    requires key != ""
    ensures "/" + TrimLeftSlashes(key) == key <==> key[0] == '/' && (|key| > 1 ==> key[1] != '/')
  {
    var url := "/" + TrimLeftSlashes(key);
    assert url[0] == '/';
    if key[0] == '/' {
      assert key == "/" + key[1..];
      TrimmedKey(key[1..]);
      assert TrimLeftSlashes(key) == TrimLeftSlashes(key[1..]);
      assert url == key ==> url[1..] == key[1..];
      assert url[1..] == TrimLeftSlashes(key[1..]);
    }
  }

  lemma StemShows(stem: string, key: string)
    requires stem != "" && stem[|stem| - 1] != '/'
    ensures stem + "/" + TrimLeftSlashes(key) != key
  {
    var path := TrimLeftSlashes(key);
    var url, last := stem + "/" + path, |stem| - 1;
    TrimmedKey(key);
    assert url[last] == stem[last] && |url| == |stem| + 1 + |path|;
    assert last < |key| - |path| ==> key[last] == '/';
  }

  lemma OtherUrlAccepted(base: string, key: string)
    requires !IsUrl(base) && !IsUrl(key) && key != ""
    ensures NormalizeAssetKey(base, FullAssetURL(base, key)) == Some(FullAssetURL(base, key))
    ensures FullAssetURL(base, key) != ""
  {
    TrimmedBase(base);
    StemMakesUrl(TrimRightSlashes(base), TrimLeftSlashes(key));
  }

  lemma OtherBase(base: string, key: string)
    requires !IsUrl(base) && !IsUrl(key) && key != ""
    ensures NormalizeAssetKey(base, FullAssetURL(base, key)) == Some(key) <==> Survives(base, key)
  {
    OtherUrlAccepted(base, key);
    var stem := TrimRightSlashes(base);
    if stem == "" {
      assert "" + "/" + TrimLeftSlashes(key) == "/" + TrimLeftSlashes(key);
      OneSlashRestored(key);
    } else {
      TrimmedBase(base);
      StemShows(stem, key);
    }
  }

  /** What is taken for a key: anything that is no URL as it stands, and of a URL under the base the rest; nothing
      else. */
  lemma InputTaken(base: string, input: string, key: string)
    ensures NormalizeAssetKey(base, input) == Some(key) <==>
            if IsUrl(input) then input == TrimRightSlashes(base) + "/" + key else input == key
  {
    var baseUrl := TrimRightSlashes(base) + "/";
    assert (baseUrl + key)[|baseUrl|..] == key;
    if baseUrl <= input {
      assert input == baseUrl + input[|baseUrl|..];
    }
  }

  predicate PlainPath(path: string) {
    path == "" || path[0] != '/'
  }

  /** A URL is accepted exactly when it is a path under the base. The accepted ones whose path starts with no slash
      are exactly the URLs the server makes of keys. */
  lemma AcceptedUrls(base: string, input: string)
    requires IsUrl(base) && IsUrl(input)
    ensures NormalizeAssetKey(base, input).Some? <==> exists path :: input == TrimRightSlashes(base) + "/" + path
    ensures (NormalizeAssetKey(base, input).Some? && PlainPath(NormalizeAssetKey(base, input).value))
            <==> exists key | key != "" && !IsUrl(key) :: FullAssetURL(base, key) == input
  {
    var key := NormalizeAssetKey(base, input);
    if key.Some? {
      assert input == TrimRightSlashes(base) + "/" + key.value;
      if PlainPath(key.value) {
        MadeOfKey(base, key.value);
      }
    }
    forall k | k != "" && !IsUrl(k) && FullAssetURL(base, k) == input ensures key.Some? && PlainPath(key.value) {
      UrlTakenBack(base, k);
      TrimmedKey(k);
    }
  }

  lemma MadeOfKey(base: string, path: string)
    requires PlainPath(path)
    ensures !IsUrl("/" + path) && FullAssetURL(base, "/" + path) == TrimRightSlashes(base) + "/" + path
  {
    TrimmedKey(path);
    assert ("/" + path)[0] == '/' && ("/" + path)[1..] == path;
  }

  /** Whether a profile update that sends `avatarUrl` removes the stored avatar `oldKey` from storage. */
  predicate DeletesOldAvatar(base: string, oldKey: string, avatarUrl: string) {
    var key := NormalizeAssetKey(base, avatarUrl);
    key.Some? && key.value != "" && oldKey != "" && oldKey != key.value
  }

  /** When sending back the avatar URL the server itself gave out removes the avatar. */
  predicate LosesAvatar(base: string, key: string) {
    if key == "" then false
    else if IsUrl(key) then TrimRightSlashes(base) + "/" < key
    else if IsUrl(base) then key[0] == '/' && TrimLeftSlashes(key) != ""
    else !Survives(base, key)
  }

  lemma UrlKeyEchoed(base: string, key: string)
    requires IsUrl(key)
    ensures DeletesOldAvatar(base, key, FullAssetURL(base, key)) <==> TrimRightSlashes(base) + "/" < key
  {
    var baseUrl := TrimRightSlashes(base) + "/";
    if baseUrl <= key {
      assert |key[|baseUrl|..]| < |key|;
    }
  }

  /** For every base and every stored key: sending back the server's own avatar URL removes the avatar exactly when
      the key is a URL properly under the base, or under an http base starts with a slash and is more than slashes,
      or under any other base does not survive. */
  lemma EchoLosesAvatar(base: string, oldKey: string)
    ensures DeletesOldAvatar(base, oldKey, FullAssetURL(base, oldKey)) <==> LosesAvatar(base, oldKey)
  {
    if oldKey == "" {
    } else if IsUrl(oldKey) {
      UrlKeyEchoed(base, oldKey);
    } else if IsUrl(base) {
      UrlTakenBack(base, oldKey);
      TrimmedKey(oldKey);
    } else {
      OtherUrlAccepted(base, oldKey);
      AssetRoundTrip(base, oldKey);
    }
  }

  /** Such a URL for a key can be stored: one update puts it there, and echoing what the server then shows for it
      removes it. */
  lemma StoredUrlIsLost()
    ensures var base, sent := "http://b", "http://b/http://b/x";
            var stored := NormalizeAssetKey(base, sent);
            && stored == Some("http://b/x")
            && DeletesOldAvatar(base, stored.value, FullAssetURL(base, stored.value))
            && NormalizeAssetKey(base, FullAssetURL(base, stored.value)) == Some("x")
  {
    var base := "http://b";
    assert TrimRightSlashes(base) == base;
    assert base + "/" == "http://b/";
    assert "http://b/http://b/x"[9..] == "http://b/x";
    assert "http://b/x"[9..] == "x";
  }
}
