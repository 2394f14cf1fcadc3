/** The pipeline switch of Core/renderer.cpp: one path tracer and one
    rasterizer side by side, a pointer to the tracer's settings for the
    interface to edit, a rendering mode, and the image last rendered. */
module Rendering {
  import opened LinAlg
  import opened Scenes
  import Tracing
  import Rasterization
  import Images
  import Cameras

  datatype RenderingMode = Rasterization | RayTracing

  /** `Renderer::Settings`: rasterization unless changed. */
  const DefaultMode: RenderingMode := RenderingMode.Rasterization

  class Renderer {
    const tracer: Tracing.Tracer
    const rasterizer: Rasterization.Rasterizer
    /** `tracerSettings`, pointing at the tracer's own settings. */
    const tracerSettings: Tracing.TracerSettings
    var mode: RenderingMode
    var image: Images.Image?

    /** Both pipelines are in order, have been resized together or not at
        all, and own separate images and packed words. */
    ghost predicate Valid()
      reads this, tracer, rasterizer, tracer.image, rasterizer.image
    {
      && tracerSettings == tracer.settings
      && tracer.Valid() && rasterizer.Valid()
      && (tracer.image == null <==> rasterizer.image == null)
      && (tracer.image != null ==>
            && tracer.image != rasterizer.image
            && tracer.imageData != rasterizer.imageData
            && tracer.image.width == rasterizer.image.width
            && tracer.image.height == rasterizer.image.height)
    }

    /** `Renderer()`: two fresh pipelines, the settings pointer aimed at the
        tracer's settings, the default mode and no image yet. */
    constructor (traceMath: MathLib, rasterMath: MathLib)
      ensures Valid() && fresh(tracer) && fresh(rasterizer)
      ensures tracerSettings == tracer.settings && !tracerSettings.accumulate && tracerSettings.bounceTimes == 2
      ensures mode == DefaultMode && image == null
      ensures tracer.image == null && rasterizer.image == null
      ensures tracer.math == traceMath && rasterizer.math == rasterMath
    {
      var t := new Tracing.Tracer(traceMath);
      tracer := t;
      tracerSettings := t.settings;
      rasterizer := new Rasterization.Rasterizer(rasterMath);
      mode := DefaultMode;
      image := null;
    }

    /** `resize`: forwards the same size to the tracer, then to the
        rasterizer. */
    method Resize(width: nat, height: nat)
      requires Valid()
      modifies tracer, tracer.image, rasterizer, rasterizer.image
      ensures Valid() && tracer.image != null
      ensures tracer.image.width == width && tracer.image.height == height
      ensures rasterizer.image.width == width && rasterizer.image.height == height
      ensures old(tracer.image) == null || old(tracer.image.width) != width || old(tracer.image.height) != height ==>
        tracer.frameIndex == 1
      ensures old(tracer.image) != null && old(tracer.image.width) == width && old(tracer.image.height) == height ==>
        tracer.frameIndex == old(tracer.frameIndex)
        && rasterizer.colorBuffer == old(rasterizer.colorBuffer) && rasterizer.depthBuffer == old(rasterizer.depthBuffer)
    {
      tracer.Resize(width, height);
      rasterizer.Resize(width, height);
    }

    /** `render`: in rasterization mode only the rasterizer draws and its
        image is published; in ray-tracing mode only the tracer draws and
        its image is published. The other pipeline is left as it was. The
        tracer's random bounce directions are an input. */
    method Render(scene: Scene, camera: Cameras.Camera, random: Tracing.Random)
      requires Valid() && tracer.image != null && SceneReady(scene)
      requires |camera.rayDirections| == tracer.image.width * tracer.image.height
      modifies this`image, tracer`frameIndex, tracer.accumulationData, tracer.imageData, tracer.image,
        rasterizer`colorBuffer, rasterizer`depthBuffer, rasterizer.imageData, rasterizer.image
      ensures Valid()
      ensures mode == RenderingMode.Rasterization ==>
        && image == rasterizer.image
        && rasterizer.Current() == Rasterization.RenderFrame(
             Rasterization.CameraContext(rasterizer.math, camera, rasterizer.image.width, rasterizer.image.height), scene)
        && Rasterization.FrameInUnit(rasterizer.Current())
        && rasterizer.image.pixels == Rasterization.PackedFrame(rasterizer.Current())
        && tracer.frameIndex == old(tracer.frameIndex) && tracer.image.pixels == old(tracer.image.pixels)
      ensures mode == RenderingMode.RayTracing ==>
        && image == tracer.image
        && tracer.image.pixels == tracer.imageData[..]
        && tracer.frameIndex == Tracing.NextFrameIndex(old(tracer.frameIndex), tracer.settings.accumulate)
        && rasterizer.Current() == old(rasterizer.Current()) && rasterizer.image.pixels == old(rasterizer.image.pixels)
    {
      if mode == RenderingMode.Rasterization {
        rasterizer.Render(scene, camera);
        image := rasterizer.image;
      } else {
        tracer.Render(scene, camera, random);
        image := tracer.image;
      }
    }

    /** `resetTracerFrame`: only the tracer's frame index changes. */
    method ResetTracerFrame()
      modifies tracer`frameIndex
      ensures tracer.frameIndex == 1
    {
      tracer.ResetFrame();
    }
  }
}
