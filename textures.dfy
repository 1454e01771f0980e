/** Texture2D: a decoded image uploaded as one GL texture. */
module Textures {
  import opened Wrappers
  import opened GlApi
  import Paths

  datatype TextureType = Diffuse | Specular | Emission
  datatype WrapMode = Repeat | ClampToEdge
  datatype FilterMode = Linear | Nearest

  /** GL_REPEAT and GL_CLAMP_TO_EDGE. */
  function WrapValue(w: WrapMode): nat {
    match w
    case Repeat => 0x2901
    case ClampToEdge => 0x812F
  }

  /** GL_LINEAR and GL_NEAREST. */
  function FilterValue(f: FilterMode): nat {
    match f
    case Linear => 0x2601
    case Nearest => 0x2600
  }

  datatype Texture2DBuilder = Texture2DBuilder(
    wrapS: WrapMode, wrapT: WrapMode, minFilter: FilterMode, magFilter: FilterMode, kind: TextureType)

  /** A default-initialised `Texture2DBuilder`. */
  const DefaultBuilder := Texture2DBuilder(Repeat, Repeat, Linear, Linear, Diffuse)

  /** What the image decoder reports for one file. */
  datatype Image = Image(width: int, height: int, channels: int)

  datatype LoadError = DecodeFailed(path: string) | UnsupportedFormat(path: string)

  /** The channel-count switch of the constructor: 1, 3 and 4 channels have a pixel format. */
  function ChannelFormat(channels: int): Option<PixelFormat> {
    match channels
    case 1 => Some(Red)
    case 3 => Some(Rgb)
    case 4 => Some(Rgba)
    case _ => None
  }

  /** The number of channels a pixel format holds. */
  function FormatChannels(f: PixelFormat): nat {
    match f
    case Red => 1
    case Rgb => 3
    case Rgba => 4
  }

  /** The format chosen for a channel count holds exactly that many channels, and every format is chosen for its own count. */
  lemma ChannelFormatRoundTrip(channels: int, f: PixelFormat)
    ensures ChannelFormat(FormatChannels(f)) == Some(f)
    ensures ChannelFormat(channels) == Some(f) ==> FormatChannels(f) == channels
    ensures ChannelFormat(channels).None? <==> channels !in {1, 3, 4}
  {
  }

  /** The checks the constructor makes before touching the GPU: decoding, then the channel count. */
  function Decode(images: map<string, Image>, path: string): (r: Result<(Image, PixelFormat), LoadError>)
    ensures r.Failure? <==> path !in images || images[path].channels !in {1, 3, 4}
    ensures r.Failure? ==>
      r.error == (if path !in images then DecodeFailed(path) else UnsupportedFormat(path))
    ensures r.Success? ==>
      r.value.0 == images[path] && FormatChannels(r.value.1) == images[path].channels
  {
    if path !in images then Failure(DecodeFailed(path))
    else
      match ChannelFormat(images[path].channels)
      case None => Failure(UnsupportedFormat(path))
      case Some(f) => Success((images[path], f))
  }

  /** The GL calls of a successful construction, from glGenTextures to glGenerateMipmap. */
  function UploadTrace(id: nat, b: Texture2DBuilder, img: Image, f: PixelFormat): seq<Cmd> {
    [ Create(TextureObject, id),
      BindTexture(id),
      TexParameteri(WrapS, WrapValue(b.wrapS)),
      TexParameteri(WrapT, WrapValue(b.wrapT)),
      TexParameteri(MinFilter, FilterValue(b.minFilter)),
      TexParameteri(MagFilter, FilterValue(b.magFilter)),
      TexImage2D(f, img.width, img.height),
      GenerateMipmap ]
  }

  /** The image decoder (stb_image): its files, and how many decoded buffers are not yet released. */
  class Decoder {
    const images: map<string, Image>
    var live: nat

    constructor (images: map<string, Image>)
      ensures this.images == images && live == 0
    {
      this.images := images;
      live := 0;
    }

    /** stbi_load: the image, or nothing when the file cannot be decoded. */
    method Load(path: string) returns (data: Option<Image>)
      modifies this
      ensures data == (if path in images then Some(images[path]) else None)
      ensures live == old(live) + (if data.Some? then 1 else 0)
    {
      if path in images {
        data := Some(images[path]);
        live := live + 1;
      } else {
        data := None;
      }
    }

    /** stbi_image_free. */
    method Free()
      requires live > 0
      modifies this
      ensures live == old(live) - 1
    {
      live := live - 1;
    }
  }

  class Texture2D {
    const id: nat
    const width: int
    const height: int
    const channels: int
    const kind: TextureType
    const path: string

    constructor (id: nat, img: Image, kind: TextureType, path: string)
      ensures this.id == id && width == img.width && height == img.height && channels == img.channels
      ensures this.kind == kind && this.path == path
    {
      this.id := id;
      width, height, channels := img.width, img.height, img.channels;
      this.kind := kind;
      this.path := path;
    }

    /** get_local_path. */
    function LocalPath(): string {
      Paths.FileName(path)
    }

    method Bind(gl: Context)
      modifies gl
      ensures gl.trace == old(gl.trace) + [BindTexture(id)] && gl.nextName == old(gl.nextName)
    {
      gl.Emit([BindTexture(id)]);
    }

    /**
     * The constructor Texture2D(file_path, builder). A file the decoder
     * cannot read and an unsupported channel count both fail before any GL
     * call; on success the texture is uploaded with the builder's parameters
     * and the decoded buffer is released. Every path releases the buffer.
     */
    static method Load(gl: Context, decoder: Decoder, filePath: string, builder: Texture2DBuilder)
      returns (r: Result<Texture2D, LoadError>)
      modifies gl, decoder
      ensures decoder.live == old(decoder.live)
      ensures var d := Decode(decoder.images, filePath);
        && (r.Failure? <==> d.Failure?)
        && (d.Failure? ==> r.error == d.error && gl.trace == old(gl.trace) && gl.nextName == old(gl.nextName))
        && (d.Success? ==>
              && fresh(r.value)
              && r.value.id == old(gl.nextName) && gl.nextName == old(gl.nextName) + 1
              && r.value.path == filePath && r.value.kind == builder.kind
              && r.value.width == d.value.0.width && r.value.height == d.value.0.height
              && r.value.channels == d.value.0.channels
              && gl.trace == old(gl.trace) + UploadTrace(r.value.id, builder, d.value.0, d.value.1))
    {
      var data := decoder.Load(filePath);
      if data.None? {
        return Failure(DecodeFailed(filePath));
      }
      var img := data.value;
      var format := ChannelFormat(img.channels);
      if format.None? {
        decoder.Free();
        return Failure(UnsupportedFormat(filePath));
      }
      var id := gl.Generate(TextureObject);
      gl.Emit(UploadTrace(id, builder, img, format.value)[1..]);
      decoder.Free();
      var t := new Texture2D(id, img, builder.kind, filePath);
      return Success(t);
    }

    /**
     * The constructor as written: identical to `Load` except that the
     * unsupported-format throw happens before stbi_image_free, so the
     * decoded buffer is never released on that path.
     */
    static method LoadAsWritten(gl: Context, decoder: Decoder, filePath: string, builder: Texture2DBuilder)
      returns (r: Result<Texture2D, LoadError>)
      modifies gl, decoder
      ensures var d := Decode(decoder.images, filePath);
        && (r.Failure? <==> d.Failure?)
        && (d.Failure? ==> r.error == d.error && gl.trace == old(gl.trace) && gl.nextName == old(gl.nextName))
        && (d.Failure? && d.error.UnsupportedFormat? ==> decoder.live == old(decoder.live) + 1)
        && (!(d.Failure? && d.error.UnsupportedFormat?) ==> decoder.live == old(decoder.live))
        && (d.Success? ==>
              && fresh(r.value)
              && r.value.id == old(gl.nextName) && gl.nextName == old(gl.nextName) + 1
              && r.value.path == filePath && r.value.kind == builder.kind
              && gl.trace == old(gl.trace) + UploadTrace(r.value.id, builder, d.value.0, d.value.1))
    {
      var data := decoder.Load(filePath);
      if data.None? {
        return Failure(DecodeFailed(filePath));
      }
      var img := data.value;
      var format := ChannelFormat(img.channels);
      if format.None? {
        return Failure(UnsupportedFormat(filePath));
      }
      var id := gl.Generate(TextureObject);
      gl.Emit(UploadTrace(id, builder, img, format.value)[1..]);
      decoder.Free();
      var t := new Texture2D(id, img, builder.kind, filePath);
      return Success(t);
    }
  }

  /** A two-channel image makes the constructor as written leave one decoded buffer behind. */
  method TwoChannelImageLeaks() returns (leaked: int)
    ensures leaked == 1
  {
    var decoder := new Decoder(map["grey_alpha.png" := Image(16, 16, 2)]);
    var gl := new Context(map[], (stage, text) => true);
    var r := Texture2D.LoadAsWritten(gl, decoder, "grey_alpha.png", DefaultBuilder);
    assert r == Failure(UnsupportedFormat("grey_alpha.png"));
    leaked := decoder.live;
  }
}
